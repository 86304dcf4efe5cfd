/** When a cron fires across clock changes (src/rsched/firetimes.py). Instants are UTC seconds; a
    zone is an offset that changes at isolated transitions; croniter is an increasing stream of
    instants. Wall times resolve as in PEP 495: fold=0 is the first of two readings, fold=1 the
    second, and in a gap they swap. */
module FireTimes {
  import opened Basics

  datatype Transition = Transition(at: int, offset: int)
  datatype Zone = Zone(initial: int, transitions: seq<Transition>)

  /** The offset in force in segment `i`, between transition i - 1 and transition i. */
  function Offset(z: Zone, i: nat): int
    requires i <= |z.transitions|
  {
    if i == 0 then z.initial else z.transitions[i - 1].offset
  }

  function Jump(z: Zone, i: nat): nat
    requires i < |z.transitions|
  {
    var d := Offset(z, i + 1) - Offset(z, i);
    if d < 0 then -d else d
  }

  /** Transitions are further apart than the clock jumps at them. */
  ghost predicate Isolated(z: Zone) {
    forall i: nat, k: nat :: i < k < |z.transitions| && k == i + 1 ==>
      && z.transitions[i].at < z.transitions[k].at
      && Jump(z, i) + Jump(z, k) <= z.transitions[k].at - z.transitions[i].at
  }

  /** How many of the ascending thresholds `x` has reached (bisect_right). */
  function Reached(ts: seq<int>, x: int): (n: nat)
    ensures n <= |ts|
  {
    if ts == [] then 0 else if ts[|ts| - 1] <= x then |ts| else Reached(ts[..|ts| - 1], x)
  }

  predicate Ascending(ts: seq<int>) {
    forall i, k :: 0 <= i < k < |ts| ==> ts[i] <= ts[k]
  }

  lemma {:induction false} AscendingBySteps(ts: seq<int>)
    requires forall i, k :: 0 <= i < k < |ts| && k == i + 1 ==> ts[i] <= ts[k]
    ensures Ascending(ts)
  {
    if |ts| > 1 {
      var n := |ts| - 1;
      AscendingBySteps(ts[..n]);
      assert ts[n - 1] <= ts[n];
      forall i | 0 <= i < n ensures ts[i] <= ts[n] {
        assert ts[..n][i] <= ts[..n][n - 1] || i == n - 1;
      }
    }
  }

  lemma {:induction false} ReachedBetween(ts: seq<int>, x: int)
    ensures var n := Reached(ts, x); (n > 0 ==> ts[n - 1] <= x) && (n < |ts| ==> x < ts[n])
  {
    if ts != [] && ts[|ts| - 1] > x { ReachedBetween(ts[..|ts| - 1], x); }
  }

  lemma ReachedUnique(ts: seq<int>, x: int, n: nat)
    requires Ascending(ts) && n <= |ts|
    requires (n > 0 ==> ts[n - 1] <= x) && (n < |ts| ==> x < ts[n])
    ensures Reached(ts, x) == n
  {
    ReachedBetween(ts, x);
  }

  // ---------------------------------------------------------------------- instants and walls

  function Instants(z: Zone): seq<int> {
    seq(|z.transitions|, i requires 0 <= i < |z.transitions| => z.transitions[i].at)
  }

  function Segment(z: Zone, u: int): (i: nat)
    ensures i <= |z.transitions|
  {
    Reached(Instants(z), u)
  }

  function Local(z: Zone, u: int): int {
    u + Offset(z, Segment(z, u))
  }

  /** Where on the wall clock a transition takes effect when read with this fold. */
  function Wall(z: Zone, i: nat, fold: bool): int
    requires i < |z.transitions|
  {
    var (before, after) := (Offset(z, i), Offset(z, i + 1));
    z.transitions[i].at + if (before < after) == fold then before else after
  }

  function Walls(z: Zone, fold: bool): seq<int> {
    seq(|z.transitions|, i requires 0 <= i < |z.transitions| => Wall(z, i, fold))
  }

  /** `wall.replace(tzinfo=tz, fold=fold).astimezone(UTC)` */
  function Resolve(z: Zone, wall: int, fold: bool): int {
    wall - Offset(z, Reached(Walls(z, fold), wall))
  }

  /** `_repeats_a_wall_time` of an instant `t` that shows `wall`. */
  predicate Repeats(z: Zone, wall: int, t: int) {
    Resolve(z, wall, false) < Resolve(z, wall, true) == t
  }

  /** Transition `k` takes effect on the wall only after transition `i`, in either fold. */
  lemma WallStep(z: Zone, i: nat, k: nat)
    requires Isolated(z) && i < k < |z.transitions| && k == i + 1
    ensures Wall(z, i, true) <= Wall(z, i, false) <= Wall(z, k, true) <= Wall(z, k, false)
  {
    assert Jump(z, i) + Jump(z, k) <= z.transitions[k].at - z.transitions[i].at;
  }

  lemma WallsChain(z: Zone)
    requires Isolated(z)
    ensures Ascending(Instants(z)) && Ascending(Walls(z, false)) && Ascending(Walls(z, true))
  {
    forall i, k | 0 <= i < k < |z.transitions| && k == i + 1
      ensures Instants(z)[i] <= Instants(z)[k]
      ensures Walls(z, false)[i] <= Walls(z, false)[k] && Walls(z, true)[i] <= Walls(z, true)[k]
    {
      WallStep(z, i, k);
    }
    AscendingBySteps(Instants(z));
    AscendingBySteps(Walls(z, false));
    AscendingBySteps(Walls(z, true));
  }

  /** The segments the two folds of a wall time look in: its first reading and its second. */
  function First(z: Zone, wall: int): (i: nat)
    ensures i <= |z.transitions|
  {
    Reached(Walls(z, false), wall)
  }

  function Second(z: Zone, wall: int): (i: nat)
    ensures i <= |z.transitions|
  {
    Reached(Walls(z, true), wall)
  }

  lemma FirstThresholds(z: Zone, wall: int)
    ensures First(z, wall) > 0 ==> Wall(z, First(z, wall) - 1, false) <= wall
    ensures First(z, wall) < |z.transitions| ==> wall < Wall(z, First(z, wall), false)
  {
    ReachedBetween(Walls(z, false), wall);
  }

  lemma SecondThresholds(z: Zone, wall: int)
    ensures Second(z, wall) > 0 ==> Wall(z, Second(z, wall) - 1, true) <= wall
    ensures Second(z, wall) < |z.transitions| ==> wall < Wall(z, Second(z, wall), true)
  {
    ReachedBetween(Walls(z, true), wall);
  }

  lemma Thresholds(z: Zone, wall: int)
    ensures First(z, wall) > 0 ==> Wall(z, First(z, wall) - 1, false) <= wall
    ensures First(z, wall) < |z.transitions| ==> wall < Wall(z, First(z, wall), false)
    ensures Second(z, wall) > 0 ==> Wall(z, Second(z, wall) - 1, true) <= wall
    ensures Second(z, wall) < |z.transitions| ==> wall < Wall(z, Second(z, wall), true)
  {
    FirstThresholds(z, wall);
    SecondThresholds(z, wall);
  }

  lemma SegmentBounds(z: Zone, u: int)
    ensures Segment(z, u) > 0 ==> z.transitions[Segment(z, u) - 1].at <= u
    ensures Segment(z, u) < |z.transitions| ==> u < z.transitions[Segment(z, u)].at
  {
    ReachedBetween(Instants(z), u);
  }

  lemma SegmentIs(z: Zone, u: int, i: nat)
    requires Isolated(z) && i <= |z.transitions|
    requires i > 0 ==> z.transitions[i - 1].at <= u
    requires i < |z.transitions| ==> u < z.transitions[i].at
    ensures Segment(z, u) == i
  {
    WallsChain(z);
    ReachedUnique(Instants(z), u, i);
  }

  lemma WallsAscend(z: Zone, i: nat, k: nat, fold: bool)
    requires Isolated(z) && i <= k < |z.transitions|
    ensures Wall(z, i, fold) <= Wall(z, k, fold)
  {
    WallsChain(z);
    assert Walls(z, fold)[i] == Wall(z, i, fold) && Walls(z, fold)[k] == Wall(z, k, fold);
  }

  /** On the wall, fold 0 takes a transition no earlier than either offset does, fold 1 no later. */
  lemma WallOutside(z: Zone, i: nat)
    requires i < |z.transitions|
    ensures Wall(z, i, true) <= z.transitions[i].at + Offset(z, i) <= Wall(z, i, false)
    ensures Wall(z, i, true) <= z.transitions[i].at + Offset(z, i + 1) <= Wall(z, i, false)
  {
  }

  lemma FirstBefore(z: Zone, u: int)
    requires Isolated(z)
    ensures First(z, Local(z, u)) <= Segment(z, u)
  {
    var (s, wall) := (Segment(z, u), Local(z, u));
    if s < First(z, wall) {
      SegmentBounds(z, u);
      WallOutside(z, s);
      assert wall < Wall(z, s, false);
      FirstThresholds(z, wall);
      WallsAscend(z, s, First(z, wall) - 1, false);
    }
  }

  lemma SecondAfter(z: Zone, u: int)
    requires Isolated(z)
    ensures Segment(z, u) <= Second(z, Local(z, u))
  {
    var (s, wall) := (Segment(z, u), Local(z, u));
    if Second(z, wall) < s {
      SegmentBounds(z, u);
      WallOutside(z, s - 1);
      assert Wall(z, s - 1, true) <= wall;
      SecondThresholds(z, wall);
      WallsAscend(z, Second(z, wall), s - 1, true);
    }
  }

  /** A wall time has no reading outside the segments its folds look in. */
  lemma ReadingsBetween(z: Zone, u: int)
    requires Isolated(z)
    ensures First(z, Local(z, u)) <= Segment(z, u) <= Second(z, Local(z, u))
  {
    FirstBefore(z, u);
    SecondAfter(z, u);
  }

  lemma FirstNotAfterSecond(z: Zone, wall: int)
    requires Isolated(z)
    ensures First(z, wall) <= Second(z, wall)
  {
    var (a, b) := (First(z, wall), Second(z, wall));
    if b < a {
      FirstThresholds(z, wall);
      SecondThresholds(z, wall);
      WallOutside(z, a - 1);
      WallsAscend(z, b, a - 1, true);
    }
  }

  lemma SecondNextToFirst(z: Zone, wall: int)
    requires Isolated(z)
    ensures Second(z, wall) <= First(z, wall) + 1
  {
    Thresholds(z, wall);
    var (a, b) := (First(z, wall), Second(z, wall));
    if a + 1 < b {
      WallStep(z, a, a + 1);
      WallsAscend(z, a + 1, b - 1, true);
    }
  }

  /** In a fold, each fold value resolves to an instant that shows the wall time. */
  lemma FoldReadings(z: Zone, wall: int)
    requires Isolated(z) && Resolve(z, wall, false) < Resolve(z, wall, true)
    ensures Second(z, wall) == First(z, wall) + 1
    ensures Local(z, Resolve(z, wall, false)) == wall && Local(z, Resolve(z, wall, true)) == wall
  {
    FirstNotAfterSecond(z, wall);
    SecondNextToFirst(z, wall);
    FirstReading(z, wall);
    SecondReading(z, wall);
  }

  lemma FirstReading(z: Zone, wall: int)
    requires Isolated(z) && Resolve(z, wall, false) < Resolve(z, wall, true)
    requires First(z, wall) <= Second(z, wall) <= First(z, wall) + 1
    ensures Local(z, Resolve(z, wall, false)) == wall
  {
    Thresholds(z, wall);
    var (a, b) := (First(z, wall), Second(z, wall));
    assert b == a + 1 && Offset(z, b) < Offset(z, a);
    if a > 0 { WallOutside(z, a - 1); }
    SegmentIs(z, wall - Offset(z, a), a);
  }

  lemma SecondReading(z: Zone, wall: int)
    requires Isolated(z) && Resolve(z, wall, false) < Resolve(z, wall, true)
    requires First(z, wall) <= Second(z, wall) <= First(z, wall) + 1
    ensures Local(z, Resolve(z, wall, true)) == wall
  {
    Thresholds(z, wall);
    var (a, b) := (First(z, wall), Second(z, wall));
    assert b == a + 1 && Offset(z, b) < Offset(z, a);
    var u := wall - Offset(z, b);
    assert z.transitions[a].at <= u;
    if b < |z.transitions| {
      WallOutside(z, b);
      assert u < z.transitions[b].at;
    }
    SegmentIs(z, u, b);
  }

  /** An instant that shows a time an earlier one showed is its second reading. */
  lemma EarlierMakesRepeat(z: Zone, u: int, v: int)
    requires Isolated(z) && v < u && Local(z, v) == Local(z, u)
    ensures Repeats(z, Local(z, u), u)
  {
    var wall := Local(z, u);
    SecondNextToFirst(z, wall);
    ReadingsBetween(z, u);
    ReadingsBetween(z, v);
    SegmentBounds(z, u);
    SegmentBounds(z, v);
    assert Segment(z, v) == First(z, wall) && Segment(z, u) == Second(z, wall);
  }

  /** `_repeats_a_wall_time` is true exactly of the second reading of a time the clock passes twice. */
  lemma RepeatsIff(z: Zone, u: int)
    requires Isolated(z)
    ensures Repeats(z, Local(z, u), u) <==> exists v :: v < u && Local(z, v) == Local(z, u)
  {
    var wall := Local(z, u);
    if Repeats(z, wall, u) {
      FoldReadings(z, wall);
      var v := Resolve(z, wall, false);
      assert v < u && Local(z, v) == wall;
    }
    forall v | v < u && Local(z, v) == wall ensures Repeats(z, wall, u) {
      EarlierMakesRepeat(z, u, v);
    }
  }

  /** A time the clock skips is never a repeat, whatever instant stands for it. */
  lemma GapNeverRepeats(z: Zone, wall: int, t: int)
    requires Isolated(z) && forall u :: Local(z, u) != wall
    ensures !Repeats(z, wall, t)
  {
    if Resolve(z, wall, false) < Resolve(z, wall, true) { FoldReadings(z, wall); }
  }

  // ---------------------------------------------------------------------- crons

  /** `str.split()`: the maximal runs of non-blanks. `field` is the run being read. */
  function Split(s: string, field: string): seq<string> {
    if s == "" then (if field == "" then [] else [field])
    else if IsPySpace(s[0]) then (if field == "" then [] else [field]) + Split(s[1..], "")
    else Split(s[1..], field + [s[0]])
  }

  function Lower(c: char): char {
    if 'A' <= c <= 'Z' then (c as int + 32) as char else c
  }

  predicate SameIgnoringCase(a: string, b: string) {
    |a| == |b| && forall i :: 0 <= i < |a| ==> Lower(a[i]) == Lower(b[i])
  }

  predicate NamesWallTimes(cron: string) {
    var fields := Split(cron, "");
    if fields != [] && "@" <= fields[0] then !SameIgnoringCase(fields[0], "@hourly")
    else |fields| >= 2 && !("*" <= fields[0]) && !("*" <= fields[1])
  }

  /** A field of a cron line. */
  predicate Word(s: string) {
    s != "" && forall c <- s :: !IsPySpace(c)
  }

  predicate Blanks(s: string) {
    forall c <- s :: IsPySpace(c)
  }

  lemma {:induction false} SplitBlanks(blanks: string, rest: string)
    requires Blanks(blanks)
    ensures Split(blanks + rest, "") == Split(rest, "")
  {
    if blanks == "" {
      assert blanks + rest == rest;
    } else {
      assert (blanks + rest)[1..] == blanks[1..] + rest && blanks[0] in blanks;
      SplitBlanks(blanks[1..], rest);
    }
  }

  lemma {:induction false} SplitWord(word: string, rest: string, field: string)
    requires (forall c <- word :: !IsPySpace(c)) && field + word != "" && (rest == "" || IsPySpace(rest[0]))
    ensures Split(word + rest, field) == [field + word] + Split(rest, "")
  {
    if word == "" {
      assert word + rest == rest && field + word == field;
    } else {
      assert (word + rest)[1..] == word[1..] + rest && word[0] in word;
      assert field + [word[0]] + word[1..] == field + word;
      SplitWord(word[1..], rest, field + [word[0]]);
    }
  }

  /** `@hourly` in any case. */
  predicate Hourly(word: string) {
    |word| == 7 && forall i :: 0 <= i < 7 ==> word[i] == "@hourly"[i] || word[i] == "@HOURLY"[i]
  }

  lemma HourlyIff(word: string)
    ensures SameIgnoringCase(word, "@hourly") <==> Hourly(word)
  {
  }

  /** A line of two fields or more names fixed times when neither its minute nor its hour is a wildcard; a
      shorthand names midnight, unless it is `@hourly`. */
  lemma NamesIff(lead: string, minute: string, gap: string, hour: string, rest: string)
    requires Blanks(lead) && Word(minute) && Blanks(gap) && gap != "" && Word(hour)
    requires rest == "" || IsPySpace(rest[0])
    ensures NamesWallTimes(lead + (minute + (gap + (hour + rest)))) <==>
            if minute[0] == '@' then !Hourly(minute) else minute[0] != '*' && hour[0] != '*'
  {
    HourlyIff(minute);
    SplitBlanks(lead, minute + (gap + (hour + rest)));
    assert (gap + (hour + rest))[0] == gap[0] && gap[0] in gap;
    SplitWord(minute, gap + (hour + rest), "");
    SplitBlanks(gap, hour + rest);
    SplitWord(hour, rest, "");
    assert "" + minute == minute && "" + hour == hour;
  }

  /** A line of one field names fixed times only as a shorthand, and an empty one never. */
  lemma NamesAloneIff(lead: string, word: string, tail: string)
    requires Blanks(lead) && Word(word) && Blanks(tail)
    ensures NamesWallTimes(lead + (word + tail)) <==> word[0] == '@' && !Hourly(word)
    ensures !NamesWallTimes(lead)
  {
    HourlyIff(word);
    SplitBlanks(lead, word + tail);
    if tail != "" { assert tail[0] in tail; }
    SplitWord(word, tail, "");
    SplitBlanks(tail, "");
    SplitBlanks(lead, "");
    assert "" + word == word && tail + "" == tail && lead + "" == lead;
  }

  predicate Increasing(us: seq<int>) {
    forall i, k :: 0 <= i < k < |us| ==> us[i] < us[k]
  }

  predicate Kept(z: Zone, fixed: bool, u: int) {
    !(fixed && Repeats(z, Local(z, u), u))
  }

  function Filtered(z: Zone, fixed: bool, us: seq<int>): seq<int> {
    if us == [] then []
    else
      var last := us[|us| - 1];
      Filtered(z, fixed, us[..|us| - 1]) + if Kept(z, fixed, last) then [last] else []
  }

  lemma {:induction false} FilteredIff(z: Zone, fixed: bool, us: seq<int>)
    requires Increasing(us)
    ensures Increasing(Filtered(z, fixed, us))
    ensures forall u :: u in Filtered(z, fixed, us) <==> u in us && Kept(z, fixed, u)
  {
    if us != [] {
      var n := |us| - 1;
      FilteredIff(z, fixed, us[..n]);
      assert us == us[..n] + [us[n]];
      var out := Filtered(z, fixed, us[..n]);
      forall k | 0 <= k < |out| ensures out[k] < us[n] {
        assert out[k] in out;
      }
    }
  }

  lemma {:induction false} NothingFiltered(z: Zone, us: seq<int>)
    ensures Filtered(z, false, us) == us
  {
    if us != [] {
      NothingFiltered(z, us[..|us| - 1]);
      assert us == us[..|us| - 1] + [us[|us| - 1]];
    }
  }

  /** What a schedule fires at, of any stretch of croniter's stream. */
  lemma FiresOnce(z: Zone, cron: string, us: seq<int>)
    requires Isolated(z) && Increasing(us)
    ensures
      var out := Filtered(z, NamesWallTimes(cron), us);
      && Increasing(out)
      // an interval keeps every instant, through the repeated hour too
      && (!NamesWallTimes(cron) ==> out == us)
      // a fixed time never fires twice at one local time, and its first occurrence always fires
      && (NamesWallTimes(cron) ==>
            && (forall i, k :: 0 <= i < k < |out| ==> Local(z, out[i]) != Local(z, out[k]))
            && (forall u <- us :: (forall v :: v < u ==> Local(z, v) != Local(z, u)) ==> u in out))
  {
    var fixed := NamesWallTimes(cron);
    var out := Filtered(z, fixed, us);
    FilteredIff(z, fixed, us);
    if !fixed {
      NothingFiltered(z, us);
    } else {
      forall i, k | 0 <= i < k < |out| ensures Local(z, out[i]) != Local(z, out[k]) {
        assert out[k] in out;
        RepeatsIff(z, out[k]);
      }
      forall u | u in us && forall v :: v < u ==> Local(z, v) != Local(z, u) ensures u in out {
        RepeatsIff(z, u);
      }
    }
  }

  /** `_fires`, over a stretch of croniter's stream. */
  method Fires(z: Zone, cron: string, us: seq<int>) returns (out: seq<int>)
    ensures out == Filtered(z, NamesWallTimes(cron), us)
  {
    var fixed := NamesWallTimes(cron);
    out := [];
    for i := 0 to |us|
      invariant out == Filtered(z, fixed, us[..i])
    {
      assert us[..i + 1][..i] == us[..i];
      if !(fixed && Repeats(z, Local(z, us[i]), us[i])) {
        out := out + [us[i]];
      }
    }
    assert us[..|us|] == us;
  }

  /** `next_fire`: the first instant that is kept; None when switched off, or when the stretch of
      the stream that is looked at holds none. */
  method NextFire(z: Zone, cron: string, enabled: bool, us: seq<int>) returns (r: Option<int>)
    requires Increasing(us)
    ensures cron == "" || !enabled ==> r.None?
    ensures cron != "" && enabled ==>
      match r
      case None => forall u <- us :: !Kept(z, NamesWallTimes(cron), u)
      case Some(t) =>
        t in us && Kept(z, NamesWallTimes(cron), t)
        && forall u <- us :: Kept(z, NamesWallTimes(cron), u) ==> t <= u
  {
    if cron == "" || !enabled { return None; }
    for i := 0 to |us|
      invariant forall k :: 0 <= k < i ==> !Kept(z, NamesWallTimes(cron), us[k])
    {
      if Kept(z, NamesWallTimes(cron), us[i]) { return Some(us[i]); }
    }
    return None;
  }
}
