/**
 * The bookkeeping of a game session that sits around the lanes: the
 * difficulty gradient and the distance counter of the main loop, the
 * choice between one lane and two, the leaderboard entry made at the end
 * of a game, and the key bindings.
 */
module MainWindow {
  import opened Wrappers
  import opened Objects
  import opened GameUnits

  // ---------------------------------------------------------------------
  // Difficulty and distance (game_loop)
  // ---------------------------------------------------------------------

  /** The difficulty gradient: a hundredth of the distance, capped at 20. */
  function Gradient(distance: real): (g: real)
    ensures g <= 20.0
    ensures 0.0 <= distance ==> 0.0 <= g
    ensures g == 20.0 <==> distance >= 2000.0
    ensures distance < 2000.0 ==> g * 100.0 == distance
  {
    if distance / 100.0 <= 20.0 then distance / 100.0 else 20.0
  }

  lemma GradientMonotone(d: real, d': real)
    requires d <= d'
    ensures Gradient(d) <= Gradient(d')
  {
  }

  /** How far a tick without collision carries the runner. */
  function DistanceStep(g: real): (step: real)
    ensures 0.0 <= g ==> 0.1 <= step
  {
    0.1 + 0.01 * g
  }

  // ---------------------------------------------------------------------
  // Levels (game_start, game_continue)
  // ---------------------------------------------------------------------

  datatype Level = Normal | Hard

  /** The number of lanes a level plays with. */
  function UnitCount(level: Level): (n: nat)
    ensures 1 <= n <= 2
  {
    if level == Hard then 2 else 1
  }

  /** The level of a resumed game, read off its number of lanes. */
  function LevelOf(unitCount: nat): (level: Level)
    // a saved game of one or two lanes resumes with that many lanes
    ensures 1 <= unitCount <= 2 ==> UnitCount(level) == unitCount
  {
    if unitCount == 1 then Normal else Hard
  }

  /** Resuming recovers the level a game was started with. */
  lemma LevelRoundTrip(level: Level)
    ensures LevelOf(UnitCount(level)) == level
  {
  }

  const WindowWidth: real := 1600.0
  const WindowHeight: real := 900.0

  /** The canvas height of each lane: the whole window, or half of it in
    * the two-lane hard level. */
  function LaneHeight(level: Level): (h: real)
    ensures h * (UnitCount(level) as real) == WindowHeight
  {
    if level == Hard then WindowHeight / 2.0 else WindowHeight
  }

  // ---------------------------------------------------------------------
  // Player names (submit)
  // ---------------------------------------------------------------------

  /** The characters Python's str.isspace() accepts, which str.strip()
    * removes: U+0009 to U+000D, U+001C to U+001F, the space, U+0085, U+00A0,
    * U+1680, U+2000 to U+200A, U+2028, U+2029, U+202F, U+205F and U+3000. */
  predicate IsSpace(c: char) {
    || '\t' <= c <= '\r'
    || '\U{001C}' <= c <= ' '
    || c == '\U{0085}' || c == '\U{00A0}' || c == '\U{1680}'
    || '\U{2000}' <= c <= '\U{200A}'
    || c == '\U{2028}' || c == '\U{2029}' || c == '\U{202F}' || c == '\U{205F}' || c == '\U{3000}'
  }

  predicate Blank(s: string) {
    forall i :: 0 <= i < |s| ==> IsSpace(s[i])
  }

  /** `s` without its leading whitespace. */
  function TrimStart(s: string): (r: string)
    ensures |r| <= |s| && r == s[|s| - |r|..]
    ensures r == [] || !IsSpace(r[0])
    ensures Blank(s[..|s| - |r|])
  {
    if s != [] && IsSpace(s[0]) then
      var r := TrimStart(s[1..]);
      assert s[..|s| - |r|] == [s[0]] + s[1..][..|s| - 1 - |r|];
      r
    else s
  }

  /** `s` without its trailing whitespace. */
  function TrimEnd(s: string): (r: string)
    ensures |r| <= |s| && r == s[..|r|]
    ensures r == [] || !IsSpace(r[|r| - 1])
    ensures Blank(s[|r|..])
  {
    if s != [] && IsSpace(s[|s| - 1]) then
      var r := TrimEnd(s[..|s| - 1]);
      assert s[|r|..] == s[..|s| - 1][|r|..] + [s[|s| - 1]];
      r
    else s
  }

  /** Python's `s.strip()`. */
  function Strip(s: string): string {
    TrimEnd(TrimStart(s))
  }

  /** What follows a prefix `r` of a suffix `t` of `s` in `t` is what
    * follows it in `s`. */
  lemma PrefixOfSuffix<T>(s: seq<T>, t: seq<T>, r: seq<T>)
    requires |t| <= |s| && t == s[|s| - |t|..]
    requires |r| <= |t| && r == t[..|r|]
    ensures s[|s| - |t| + |r|..] == t[|r|..]
  {
  }

  /** Strip keeps a contiguous piece of its input: the first |Strip(s)|
    * characters after the leading whitespace. */
  lemma {:induction false} StripIsSlice(s: string)
    ensures |Strip(s)| <= |TrimStart(s)|
    ensures Strip(s) == s[|s| - |TrimStart(s)|..][..|Strip(s)|]
  {
  }

  /** What strip cuts on either side of the piece it keeps is whitespace. */
  lemma {:induction false} StripCutsBlank(s: string)
    ensures var a := |s| - |TrimStart(s)|;
            a + |Strip(s)| <= |s| && Blank(s[..a]) && Blank(s[a + |Strip(s)|..])
  {
    PrefixOfSuffix(s, TrimStart(s), Strip(s));
  }

  /** What strip leaves has no whitespace at either end. */
  lemma StripEnds(s: string)
    ensures Strip(s) == [] || (!IsSpace(Strip(s)[0]) && !IsSpace(Strip(s)[|Strip(s)| - 1]))
  {
    var t := TrimStart(s);
    var r := TrimEnd(t);
    if r != [] {
      assert t != [] && r[0] == t[0];
    }
  }

  /** Strip leaves nothing exactly when the input is blank. */
  lemma StripEmptyIffBlank(s: string)
    ensures Strip(s) == [] <==> Blank(s)
  {
    var t := TrimStart(s);
    if t != [] {
      assert !Blank(s) by {
        assert t[0] == s[|s| - |t|];
      }
      assert t[0..] == t && !Blank(t);
    } else {
      assert s == s[..|s| - |t|];
    }
  }

  /** A string with no whitespace at its ends is its own strip. */
  lemma StripNoop(s: string)
    requires s != [] && !IsSpace(s[0]) && !IsSpace(s[|s| - 1])
    ensures Strip(s) == s
  {
  }

  lemma StripIdempotent(s: string)
    ensures Strip(Strip(s)) == Strip(s)
  {
    StripEnds(s);
    if Strip(s) != [] {
      StripNoop(Strip(s));
    }
  }

  const MaxNameLength: nat := 18

  datatype NameError = EmptyName | NameTooLong

  /** A name is taken stripped, and only when 1 to 18 characters remain. */
  function ValidateName(entered: string): (r: Result<string, NameError>)
    ensures r.Ok? <==> 0 < |Strip(entered)| <= MaxNameLength
    ensures r.Ok? ==> r.value == Strip(entered)
    ensures r == Err(EmptyName) <==> Strip(entered) == []
    ensures r == Err(NameTooLong) <==> |Strip(entered)| > MaxNameLength
  {
    var name := Strip(entered);
    if name == [] then Err(EmptyName)
    else if |name| > MaxNameLength then Err(NameTooLong)
    else Ok(name)
  }

  // ---------------------------------------------------------------------
  // Leaderboard (submit)
  // ---------------------------------------------------------------------

  datatype Record = Record(name: string, distance: real, time: string)

  /** The leaderboards of the two levels. */
  datatype Boards = Boards(normal: seq<Record>, hard: seq<Record>)
  {
    function Of(level: Level): seq<Record> {
      if level == Hard then hard else normal
    }

    function With(level: Level, board: seq<Record>): (r: Boards)
      ensures r.Of(level) == board
      ensures forall other :: other != level ==> r.Of(other) == Of(other)
    {
      if level == Hard then Boards(normal, board) else Boards(board, hard)
    }
  }

  /** Best first: distances never increase along the board. */
  predicate Descending(board: seq<Record>) {
    forall i, j :: 0 <= i < j < |board| ==> board[i].distance >= board[j].distance
  }

  /** `k` is where a run of length `d` goes: after every entry at least as
    * long (ties keep their place ahead) and before the first shorter one. */
  predicate IsSlot(board: seq<Record>, d: real, k: nat) {
    && k <= |board|
    && (forall j :: 0 <= j < k ==> board[j].distance >= d)
    && (k < |board| ==> board[k].distance < d)
  }

  /** There is one slot at most. */
  lemma SlotUnique(board: seq<Record>, d: real, k: nat, k': nat)
    requires IsSlot(board, d, k) && IsSlot(board, d, k')
    ensures k == k'
  {
  }

  function Insert(board: seq<Record>, k: nat, entry: Record): seq<Record>
    requires k <= |board|
  {
    board[..k] + [entry] + board[k..]
  }

  /** Inserting at the slot grows the board by one, puts the entry at the
    * slot, keeps every other entry in order, and keeps a best-first board
    * best-first. */
  lemma InsertAtSlot(board: seq<Record>, entry: Record, k: nat)
    requires IsSlot(board, entry.distance, k)
    ensures |Insert(board, k, entry)| == |board| + 1
    ensures Insert(board, k, entry)[k] == entry
    ensures Insert(board, k, entry)[..k] == board[..k] && Insert(board, k, entry)[k + 1..] == board[k..]
    ensures Descending(board) ==> Descending(Insert(board, k, entry))
  {
    var b := Insert(board, k, entry);
    assert b[k + 1..] == board[k..];
    if Descending(board) {
      forall i, j | 0 <= i < j < |b|
        ensures b[i].distance >= b[j].distance
      {
        if j < k {
          assert b[i] == board[i] && b[j] == board[j];
        } else if j == k {
          assert b[i] == board[i];
        } else if i == k {
          assert b[j] == board[j - 1] && board[k].distance < entry.distance;
        } else if i < k {
          assert b[i] == board[i] && b[j] == board[j - 1];
        } else {
          assert b[i] == board[i - 1] && b[j] == board[j - 1];
        }
      }
    }
  }

  /** The insertion point of `submit`'s for/else loop: the first entry with a
    * strictly smaller distance, or the end. */
  method RankSlot(board: seq<Record>, d: real) returns (k: nat)
    ensures IsSlot(board, d, k)
  {
    k := 0;
    while k < |board|
      invariant k <= |board|
      invariant forall j :: 0 <= j < k ==> board[j].distance >= d
    {
      if d > board[k].distance {
        return;
      }
      k := k + 1;
    }
  }

  /** Puts a finished run into a leaderboard at its slot. */
  method EnterRun(board: seq<Record>, entry: Record) returns (k: nat, updated: seq<Record>)
    ensures IsSlot(board, entry.distance, k)
    ensures updated == Insert(board, k, entry) && |updated| == |board| + 1 && updated[k] == entry
    ensures Descending(board) ==> Descending(updated)
  {
    k := RankSlot(board, entry.distance);
    updated := Insert(board, k, entry);
    InsertAtSlot(board, entry, k);
  }

  /** `ranks` is `stored` with `entry` entered on `level`'s board at its slot,
    * which is the 1-based `rank`; a best-first board stays best-first and
    * the other level's board is the stored one. */
  predicate EnteredAt(stored: Boards, level: Level, entry: Record, rank: int, ranks: Boards) {
    var board := stored.Of(level);
    && 1 <= rank <= |board| + 1
    && IsSlot(board, entry.distance, rank - 1)
    && ranks == stored.With(level, Insert(board, rank - 1, entry))
    && ranks.Of(level)[rank - 1] == entry
    && (Descending(board) ==> Descending(ranks.Of(level)))
  }

  // ---------------------------------------------------------------------
  // Key bindings (change_key)
  // ---------------------------------------------------------------------

  const DefaultKeySettings: map<string, string> :=
    map["pause" := "<Escape>", "jump1" := "<space>", "jump2" := "<Up>", "cheat" := "<r>", "boss" := "<b>"]

  /** No two actions share a key. */
  predicate DistinctBindings(keys: map<string, string>) {
    forall a, b :: a in keys && b in keys && a != b ==> keys[a] != keys[b]
  }

  lemma DefaultsDistinct()
    ensures DistinctBindings(DefaultKeySettings)
  {
  }

  /** Binding an action to a key no action holds keeps the bindings distinct. */
  lemma RebindKeepsDistinct(keys: map<string, string>, action: string, keyname: string)
    requires DistinctBindings(keys) && keyname !in keys.Values
    ensures DistinctBindings(keys[action := keyname])
  {
    var rebound := keys[action := keyname];
    forall a, b | a in rebound && b in rebound && a != b
      ensures rebound[a] != rebound[b]
    {
      if a != action && b != action {
      } else if a == action {
        assert keys[b] in keys.Values;
      } else {
        assert keys[a] in keys.Values;
      }
    }
  }

  /** The Tk name of a key symbol. */
  function KeyName(keysym: string): (n: string)
    ensures n == "<??>" <==> keysym == "??"
  {
    var n := "<" + keysym + ">";
    assert n[1..|n| - 1] == keysym;
    n
  }

  datatype KeyOutcome = Failed | Conflict | Changed

  // ---------------------------------------------------------------------
  // The window's game state
  // ---------------------------------------------------------------------

  class GameWindow {
    var keySettings: map<string, string>
    var level: Level
    var units: seq<GameUnit>
    var distance: real
    var ranks: Boards
    var rank: nat

    /** The characters of all lanes. */
    ghost function Players(): set<UserCharacter>
      reads this
    {
      set u | u in units :: u.player
    }

    /** Every lane is valid, no two lanes share a unit or a character, and
      * the distance is not negative. */
    ghost predicate Valid()
      reads this, units, Players()
    {
      && 0.0 <= distance
      && (forall i :: 0 <= i < |units| ==> units[i].Valid())
      && (forall i, j :: 0 <= i < j < |units| ==> units[i] != units[j] && units[i].player != units[j].player)
    }

    /** The key settings are the saved ones when there are any, else the
      * defaults; no game is running yet. */
    constructor (savedKeys: Option<map<string, string>>)
      ensures keySettings == (if savedKeys.Some? then savedKeys.value else DefaultKeySettings)
      ensures units == [] && distance == 0.0 && Valid()
    {
      keySettings := if savedKeys.Some? then savedKeys.value else DefaultKeySettings;
      level := Normal;
      units := [];
      distance := 0.0;
      ranks := Boards([], []);
      rank := 0;
    }

    /** `game_start`: one full-window lane for the normal level, two
      * half-height lanes for the hard one, and a distance of 0. */
    method GameStart(selected: Level)
      modifies this`level, this`units, this`distance
      ensures level == selected && distance == 0.0 && Valid()
      ensures |units| == UnitCount(selected)
      ensures forall u :: u in units ==> fresh(u) && fresh(u.player)
      ensures forall u :: u in units ==> u.cvW == WindowWidth && u.cvH == LaneHeight(selected)
      ensures forall u :: u in units ==> u.obstacles == [] && u.lastAdd == 100
      // every character starts on its lane's ground, at rest, neither jumping nor cheating
      ensures forall u :: u in units ==>
                && u.player.y == u.player.Ground() && u.player.ySpeed == 0.0
                && !u.player.isJumping && !u.player.isCheated
    {
      level := selected;
      if selected == Hard {
        var top := new GameUnit(WindowWidth, WindowHeight / 2.0);
        var bottom := new GameUnit(WindowWidth, WindowHeight / 2.0);
        units := [top, bottom];
      } else {
        var only := new GameUnit(WindowWidth, WindowHeight);
        units := [only];
      }
      distance := 0.0;
    }

    /** `game_continue`: the saved lanes and distance come back, and the
      * level is read off the number of lanes. */
    method GameContinue(savedUnits: seq<GameUnit>, savedDistance: real)
      requires 0.0 <= savedDistance
      requires forall i :: 0 <= i < |savedUnits| ==> savedUnits[i].Valid()
      requires forall i, j :: 0 <= i < j < |savedUnits| ==>
                 savedUnits[i] != savedUnits[j] && savedUnits[i].player != savedUnits[j].player
      modifies this`level, this`units, this`distance
      ensures units == savedUnits && distance == savedDistance && Valid()
      ensures level == LevelOf(|savedUnits|)
    {
      units := savedUnits;
      level := if |units| == 1 then Normal else Hard;
      distance := savedDistance;
    }

    /** `game_loop` without its drawing: tick each lane in turn with the
      * current gradient, stop at the first lane that reports a collision,
      * otherwise add the tick's distance. `ran` is the number of lanes that
      * were ticked. */
    method GameLoop(draws: seq<Draws>) returns (over: bool, ran: nat)
      requires Valid()
      requires |draws| == |units| && forall i :: 0 <= i < |draws| ==> draws[i].Valid()
      modifies this`distance, units, Players()`y, Players()`ySpeed, Players()`isJumping
      ensures Valid()
      // no lane's cheat flag changes
      ensures forall j :: 0 <= j < |units| ==> units[j].player.isCheated == old(units[j].player.isCheated)
      ensures ran <= |units|
      // a collision ends the loop at the lane that reported it and leaves the distance alone
      ensures over ==> 1 <= ran && units[ran - 1].Colliding() && distance == old(distance)
      ensures over ==> forall j :: 0 <= j < ran - 1 ==> !units[j].Colliding()
      // otherwise every lane ran, none collides, and the distance grows by the step of this gradient
      ensures !over ==> ran == |units| && forall j :: 0 <= j < |units| ==> !units[j].Colliding()
      ensures !over ==> distance == old(distance) + DistanceStep(Gradient(old(distance)))
      ensures !over ==> distance > old(distance)
      // lanes after the colliding one are not ticked
      ensures forall j :: ran <= j < |units| ==> units[j].Lane() == old(units[j].Lane())
    {
      var gradient := Gradient(distance);
      var i := 0;
      while i < |units|
        invariant 0 <= i <= |units|
        invariant distance == old(distance) && Valid()
        invariant forall j :: 0 <= j < i ==> !units[j].Colliding()
        invariant forall j :: i <= j < |units| ==> units[j].Lane() == old(units[j].Lane())
        invariant forall j :: 0 <= j < |units| ==> units[j].player.isCheated == old(units[j].player.isCheated)
      {
        assert units[i].player in Players();
        var hit := TickLane(i, gradient, draws[i]);
        if hit {
          return true, i + 1;
        }
        i := i + 1;
      }
      distance := distance + DistanceStep(gradient);
      return false, |units|;
    }

    /** One lane's `unit_loop` inside `game_loop`: the other lanes keep
      * their state. */
    method TickLane(i: nat, gradient: real, d: Draws) returns (hit: bool)
      requires Valid() && i < |units| && d.Valid()
      modifies units[i], units[i].player`y, units[i].player`ySpeed, units[i].player`isJumping
      ensures Valid()
      ensures hit <==> units[i].Colliding()
      ensures forall j :: 0 <= j < |units| && j != i ==>
                units[j].Lane() == old(units[j].Lane()) && (units[j].Colliding() <==> old(units[j].Colliding()))
    {
      hit := units[i].UnitLoop(gradient, d);
    }

    /** `cheat`: toggle infinite jump on every lane's character. */
    method Cheat()
      requires Valid()
      modifies Players()`isCheated
      ensures Valid()
      // every lane keeps its obstacles, its counter and its character's motion
      ensures forall i :: 0 <= i < |units| ==> units[i].Lane() == old(units[i].Lane())
      ensures forall i :: 0 <= i < |units| ==> units[i].player.isCheated == !old(units[i].player.isCheated)
    {
      var i := 0;
      while i < |units|
        invariant 0 <= i <= |units| && Valid()
        invariant forall j :: 0 <= j < i ==> units[j].player.isCheated == !old(units[j].player.isCheated)
        invariant forall j :: i <= j < |units| ==> units[j].player.isCheated == old(units[j].player.isCheated)
      {
        assert units[i].player in Players();
        units[i].Cheat();
        i := i + 1;
      }
    }

    /** `submit`: validate the entered name; if it is taken, put the run into
      * the leaderboard of this level (as read from storage) at its slot and
      * report the 1-based rank. */
    method Submit(entered: string, stored: Boards, now: string) returns (r: Result<nat, NameError>)
      modifies this`ranks, this`rank
      ensures ValidateName(entered).Err? ==>
                r == Err(ValidateName(entered).error) && ranks == old(ranks) && rank == old(rank)
      ensures ValidateName(entered).Ok? ==> r.Ok? && r.value == rank && 1 <= rank
      ensures ValidateName(entered).Ok? ==>
                EnteredAt(stored, level, Record(ValidateName(entered).value, distance, now), rank, ranks)
    {
      var name := ValidateName(entered);
      if name.Err? {
        return Err(name.error);
      }
      var entry := Record(name.value, distance, now);
      var k, updated := EnterRun(stored.Of(level), entry);
      assert EnteredAt(stored, level, entry, k + 1, stored.With(level, updated));
      ranks := stored.With(level, updated);
      rank := k + 1;
      r := Ok(rank);
    }

    /** `change_key`: an unknown key fails and a key some action already
      * holds (the action's own included) conflicts, both leaving the
      * settings as they are; any other key becomes the action's binding. */
    method ChangeKey(action: string, keysym: string) returns (outcome: KeyOutcome)
      modifies this`keySettings
      ensures outcome == Failed <==> keysym == "??"
      ensures outcome == Conflict <==> keysym != "??" && KeyName(keysym) in old(keySettings).Values
      ensures outcome == Changed ==> keySettings == old(keySettings)[action := KeyName(keysym)]
      ensures outcome != Changed ==> keySettings == old(keySettings)
      ensures DistinctBindings(old(keySettings)) ==> DistinctBindings(keySettings)
    {
      var keyname := KeyName(keysym);
      if keyname == "<??>" {
        outcome := Failed;
      } else if keyname in keySettings.Values {
        outcome := Conflict;
      } else {
        if DistinctBindings(keySettings) {
          RebindKeepsDistinct(keySettings, action, keyname);
        }
        keySettings := keySettings[action := keyname];
        outcome := Changed;
      }
    }

    /** `reset`: back to the default bindings. */
    method ResetKeys()
      modifies this`keySettings
      ensures keySettings == DefaultKeySettings && DistinctBindings(keySettings)
    {
      keySettings := DefaultKeySettings;
      DefaultsDistinct();
    }
  }
}
