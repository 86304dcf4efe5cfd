/** The capabilities that held permission docs raise and the floor that binds them (src/rsched/grants.py). */
module Grants {

  // ---------------------------------------------------------------------- utils entries

  /** str.partition(":"): what stands before the first colon. */
  function NameOf(entry: string): string {
    if entry == "" || entry[0] == ':' then "" else [entry[0]] + NameOf(entry[1..])
  }

  /** And after it; "" when there is none. */
  function VerbOf(entry: string): string {
    if entry == "" then "" else if entry[0] == ':' then entry[1..] else VerbOf(entry[1..])
  }

  predicate IsBare(entry: string) {
    VerbOf(entry) == ""
  }

  /** The two parts put back give the entry; an entry without a colon is its own name. */
  lemma {:induction false} SplitRestores(entry: string)
    ensures entry == if ':' in entry then NameOf(entry) + ":" + VerbOf(entry) else NameOf(entry)
    ensures ':' !in NameOf(entry) && (':' !in entry ==> VerbOf(entry) == "")
  {
    if entry != "" && entry[0] != ':' {
      SplitRestores(entry[1..]);
      assert entry == [entry[0]] + entry[1..];
    } else if entry != "" {
      assert entry == ":" + entry[1..];
    }
  }

  lemma {:induction false} SplitIs(name: string, verb: string)
    requires ':' !in name
    ensures NameOf(name) == name && VerbOf(name) == ""
    ensures NameOf(name + ":" + verb) == name && VerbOf(name + ":" + verb) == verb
  {
    var entry := name + ":" + verb;
    if name != "" {
      SplitIs(name[1..], verb);
      assert entry[1..] == name[1..] + ":" + verb && entry[0] == name[0] && name[0] in name;
      assert name == [name[0]] + name[1..];
    } else {
      assert entry[1..] == verb;
    }
  }

  // ---------------------------------------------------------------------- capabilities

  datatype Requires = Requires(actions: seq<string>, utils: seq<string>)

  /** What each permission doc of the library requires. */
  type Library = map<string, Requires>

  datatype Caps = Caps(actions: seq<string>, utils: seq<string>, settings: map<string, string>)

  const GATED := {"write_util", "revise_util", "remove_util", "write_rule", "write_recipe",
                  "detach", "schedule_run", "shell", "rebuild_routine"}

  /** The doc that canonically covers a kind no library doc may name. */
  const SOURCE := map["write_util" := "util-authoring", "revise_util" := "util-authoring",
                      "write_recipe" := "recipe-authoring", "remove_util" := "util-removal",
                      "write_rule" := "rule-authoring", "schedule_run" := "scheduling",
                      "shell" := "shell", "rebuild_routine" := "routine-rebuild"]

  /** The settings and the all-off value of each. */
  const OFF := map["confirm" := "always", "rule_confirm" := "always", "remind_confirm" := "always",
                   "config_confirm" := "always", "revise_confirm" := "always",
                   "runs" := "none", "reminders" := "none", "jobs" := "off"]

  function Needs(lib: Library, slug: string): Requires {
    if slug in lib then lib[slug] else Requires([], [])
  }

  /** _settings: every setting, a missing or empty one at its all-off value. */
  function Settings(given: map<string, string>): map<string, string> {
    map key | key in OFF.Keys :: if key in given && given[key] != "" then given[key] else OFF[key]
  }

  function Keep(s: seq<string>, ok: string -> bool): seq<string> {
    if s == [] then []
    else Keep(s[..|s| - 1], ok) + (if ok(s[|s| - 1]) then [s[|s| - 1]] else [])
  }

  /** dict.fromkeys: the first of each. */
  function Once(s: seq<string>): seq<string> {
    if s == [] then []
    else
      var most := Once(s[..|s| - 1]);
      if s[|s| - 1] in most then most else most + [s[|s| - 1]]
  }

  /** What one doc adds: each required name not held before the doc was read. */
  function Added(held: seq<string>, needs: seq<string>): seq<string> {
    held + Keep(needs, x => x !in held)
  }

  function RaisedActions(active: seq<string>, lib: Library, held: seq<string>): seq<string> {
    if active == [] then Once(held)
    else Added(RaisedActions(active[..|active| - 1], lib, held), Needs(lib, active[|active| - 1]).actions)
  }

  function RaisedUtils(active: seq<string>, lib: Library, held: seq<string>): seq<string> {
    if active == [] then Once(held)
    else Added(RaisedUtils(active[..|active| - 1], lib, held), Needs(lib, active[|active| - 1]).utils)
  }

  function Raise(active: seq<string>, lib: Library, base: Caps): Caps {
    Caps(RaisedActions(active, lib, base.actions), RaisedUtils(active, lib, base.utils), Settings(base.settings))
  }

  /** A held doc names the action, or is the one that canonically covers it. */
  predicate ActionFloats(active: seq<string>, lib: Library, a: string) {
    || (a in GATED && exists slug :: slug in active && a in Needs(lib, slug).actions)
    || (a in SOURCE && SOURCE[a] in active)
  }

  /** A held doc names the entry, or the whole util it is a verb of. */
  predicate UtilFloats(active: seq<string>, lib: Library, u: string) {
    exists slug :: slug in active && Reserves(Needs(lib, slug).utils, u)
  }

  predicate Reserves(utils: seq<string>, u: string) {
    u in utils || exists r :: r in utils && IsBare(r) && NameOf(r) == NameOf(u)
  }

  function Floor(active: seq<string>, lib: Library, caps: Caps): Caps {
    Caps(Keep(caps.actions, a => ActionFloats(active, lib, a)),
         Keep(caps.utils, u => UtilFloats(active, lib, u)),
         Settings(caps.settings))
  }

  // ---------------------------------------------------------------------- the loops

  lemma KeepNext(s: seq<string>, ok: string -> bool, i: nat)
    requires i < |s|
    ensures Keep(s[..i + 1], ok) == Keep(s[..i], ok) + (if ok(s[i]) then [s[i]] else [])
  {
    assert s[..i + 1][..i] == s[..i];
  }

  lemma {:induction false} KeepIff(s: seq<string>, ok: string -> bool)
    ensures forall x :: x in Keep(s, ok) <==> x in s && ok(x)
  {
    if s != [] {
      KeepIff(s[..|s| - 1], ok);
      assert s == s[..|s| - 1] + [s[|s| - 1]];
    }
  }

  lemma {:induction false} KeepAll(s: seq<string>, ok: string -> bool)
    requires forall x :: x in s ==> ok(x)
    ensures Keep(s, ok) == s
  {
    if s != [] {
      assert s == s[..|s| - 1] + [s[|s| - 1]];
      KeepAll(s[..|s| - 1], ok);
    }
  }

  lemma {:induction false} OnceIff(s: seq<string>)
    ensures forall x :: x in Once(s) <==> x in s
  {
    if s != [] {
      OnceIff(s[..|s| - 1]);
      assert s == s[..|s| - 1] + [s[|s| - 1]];
    }
  }

  /** Each name once, in the order in which the names first come. */
  lemma {:induction false} OnceFirst(s: seq<string>, i: nat, k: nat)
    requires i < k < |Once(s)|
    ensures Once(s)[i] != Once(s)[k]
    ensures exists n: nat :: FirstOf(s, n, Once(s)[i]) && forall m: nat :: FirstOf(s, m, Once(s)[k]) ==> n < m
  {
    var most, last := s[..|s| - 1], s[|s| - 1];
    OnceIff(most);
    if k < |Once(most)| {
      OnceFirst(most, i, k);
      var n: nat :| FirstOf(most, n, Once(s)[i]) && forall m: nat :: FirstOf(most, m, Once(s)[k]) ==> n < m;
      FirstLater(s, n, Once(s)[i]);
      assert Once(most)[k] in Once(most);
      forall m: nat | FirstOf(s, m, Once(s)[k]) ensures n < m { FirstEarlier(s, m, Once(s)[k]); }
    } else {
      assert Once(most)[i] in Once(most);
      var n := FirstIn(most, Once(s)[i]);
      FirstLater(s, n, Once(s)[i]);
    }
  }

  /** The first place of a name. */
  predicate FirstOf(s: seq<string>, n: nat, x: string) {
    n < |s| && s[n] == x && forall i :: 0 <= i < n ==> s[i] != x
  }

  lemma {:induction false} FirstIn(s: seq<string>, x: string) returns (n: nat)
    requires x in s
    ensures FirstOf(s, n, x)
  {
    n := 0;
    while s[n] != x
      invariant n < |s| && x in s[n..] && forall i :: 0 <= i < n ==> s[i] != x
      decreases |s| - n
    {
      n := n + 1;
    }
  }

  lemma FirstLater(s: seq<string>, n: nat, x: string)
    requires s != [] && FirstOf(s[..|s| - 1], n, x)
    ensures FirstOf(s, n, x)
  {
    forall i | 0 <= i < n ensures s[i] != x { assert s[..|s| - 1][i] != x; }
  }

  lemma FirstEarlier(s: seq<string>, n: nat, x: string)
    requires s != [] && FirstOf(s, n, x) && x in s[..|s| - 1]
    ensures FirstOf(s[..|s| - 1], n, x)
  {
    var k :| 0 <= k < |s| - 1 && s[..|s| - 1][k] == x;
    assert s[k] == x;
  }

  /** `part` is what stands at these places, which go up. */
  predicate Places(s: seq<string>, part: seq<string>, at: seq<nat>) {
    && |at| == |part| && (forall k :: 0 <= k < |at| ==> at[k] < |s| && s[at[k]] == part[k])
    && forall i, k :: 0 <= i < k < |at| ==> at[i] < at[k]
  }

  lemma PlacesNext(s: seq<string>, part: seq<string>, at: seq<nat>)
    requires s != [] && Places(s[..|s| - 1], part, at)
    ensures Places(s, part, at) && Places(s, part + [s[|s| - 1]], at + [|s| - 1])
  {
  }

  /** What is kept stays in its order, every occurrence of it. */
  lemma {:induction false} KeepInOrder(s: seq<string>, ok: string -> bool) returns (at: seq<nat>)
    ensures Places(s, Keep(s, ok), at) && forall i :: 0 <= i < |s| && ok(s[i]) ==> i in at
  {
    at := [];
    if s != [] {
      var n := |s| - 1;
      var most := KeepInOrder(s[..n], ok);
      PlacesNext(s, Keep(s[..n], ok), most);
      at := if ok(s[n]) then most + [n] else most;
      forall i | 0 <= i < |s| && ok(s[i]) ensures i in at {
        if i == n { assert at[|most|] == n; } else { assert s[..n][i] == s[i] && i in most; }
      }
    }
  }

  method Unique(s: seq<string>) returns (r: seq<string>)
    ensures r == Once(s)
  {
    r := [];
    var i := 0;
    while i < |s|
      invariant i <= |s| && r == Once(s[..i])
    {
      assert s[..i + 1][..i] == s[..i];
      if s[i] !in r {
        r := r + [s[i]];
      }
      i := i + 1;
    }
    assert s[..|s|] == s;
  }

  method Filter(s: seq<string>, ok: string -> bool) returns (r: seq<string>)
    ensures r == Keep(s, ok)
  {
    r := [];
    var i := 0;
    while i < |s|
      invariant i <= |s| && r == Keep(s[..i], ok)
    {
      KeepNext(s, ok, i);
      if ok(s[i]) {
        r := r + [s[i]];
      }
      i := i + 1;
    }
    assert s[..|s|] == s;
  }

  method CapabilitiesFor(active: seq<string>, lib: Library, base: Caps) returns (caps: Caps)
    ensures caps == Raise(active, lib, base)
  {
    var actions := Unique(base.actions);
    var utils := Unique(base.utils);
    var i := 0;
    while i < |active|
      invariant i <= |active|
      invariant actions == RaisedActions(active[..i], lib, base.actions)
      invariant utils == RaisedUtils(active[..i], lib, base.utils)
    {
      assert active[..i + 1][..i] == active[..i];
      var needs := Needs(lib, active[i]);
      var heldActions, heldUtils := actions, utils;
      var more := Filter(needs.actions, a => a !in heldActions);
      actions := actions + more;
      more := Filter(needs.utils, u => u !in heldUtils);
      utils := utils + more;
      i := i + 1;
    }
    assert active[..|active|] == active;
    caps := Caps(actions, utils, Settings(base.settings));
  }

  /** The sets floor_capabilities reads off the held docs. */
  method Required(active: seq<string>, lib: Library) returns (actions: set<string>, utils: set<string>)
    ensures forall a :: a in actions <==> a in GATED && exists slug :: slug in active && a in Needs(lib, slug).actions
    ensures forall u :: u in utils <==> exists slug :: slug in active && u in Needs(lib, slug).utils
  {
    actions, utils := {}, {};
    var i := 0;
    while i < |active|
      invariant i <= |active|
      invariant forall a :: a in actions <==>
                  a in GATED && exists slug :: slug in active[..i] && a in Needs(lib, slug).actions
      invariant forall u :: u in utils <==> exists slug :: slug in active[..i] && u in Needs(lib, slug).utils
    {
      assert active[..i + 1] == active[..i] + [active[i]];
      var needs := Needs(lib, active[i]);
      actions := actions + set a | a in needs.actions && a in GATED;
      utils := utils + set u | u in needs.utils;
      i := i + 1;
    }
    assert active[..|active|] == active;
  }

  method FloorCapabilities(active: seq<string>, lib: Library, caps: Caps) returns (r: Caps)
    ensures r == Floor(active, lib, caps)
  {
    var actions, utils := Required(active, lib);
    var keptActions := FloorActions(active, lib, caps.actions, actions);
    var keptUtils := FloorUtils(active, lib, caps.utils, utils);
    r := Caps(keptActions, keptUtils, Settings(caps.settings));
  }

  method FloorActions(active: seq<string>, lib: Library, held: seq<string>, required: set<string>)
    returns (kept: seq<string>)
    requires forall a :: a in required <==> a in GATED && exists slug :: slug in active && a in Needs(lib, slug).actions
    ensures kept == Keep(held, a => ActionFloats(active, lib, a))
  {
    kept := Filter(held, a => a in required || (a in SOURCE && SOURCE[a] in active));
    KeepSame(held, a => a in required || (a in SOURCE && SOURCE[a] in active), a => ActionFloats(active, lib, a));
  }

  method FloorUtils(active: seq<string>, lib: Library, held: seq<string>, required: set<string>)
    returns (kept: seq<string>)
    requires forall u :: u in required <==> exists slug :: slug in active && u in Needs(lib, slug).utils
    ensures kept == Keep(held, u => UtilFloats(active, lib, u))
  {
    var whole := set u | u in required && IsBare(u) :: NameOf(u);
    kept := Filter(held, u => u in required || NameOf(u) in whole);
    KeepSame(held, u => u in required || NameOf(u) in whole, u => UtilFloats(active, lib, u));
  }

  lemma {:induction false} KeepSame(s: seq<string>, f: string -> bool, g: string -> bool)
    requires forall x :: f(x) == g(x)
    ensures Keep(s, f) == Keep(s, g)
  {
    if s != [] { KeepSame(s[..|s| - 1], f, g); }
  }

  // ---------------------------------------------------------------------- raise, then floor

  /** Some held doc requires the action; some held doc requires the entry. */
  predicate NeedsAction(active: seq<string>, lib: Library, a: string) {
    exists slug :: slug in active && a in Needs(lib, slug).actions
  }

  predicate NeedsUtil(active: seq<string>, lib: Library, u: string) {
    exists slug :: slug in active && u in Needs(lib, slug).utils
  }

  /** What a routine is given: the cascade, then the floor. */
  function Bind(active: seq<string>, lib: Library, base: Caps): Caps {
    Floor(active, lib, Raise(active, lib, base))
  }

  predicate SameNames(a: seq<string>, b: seq<string>) {
    (forall x :: x in a ==> x in b) && (forall x :: x in b ==> x in a)
  }

  predicate SameCaps(a: Caps, b: Caps) {
    SameNames(a.actions, b.actions) && SameNames(a.utils, b.utils) && a.settings == b.settings
  }

  /** A library as it is read: only gated kinds are ever required. */
  predicate Normalized(lib: Library) {
    forall slug :: slug in lib ==> forall a :: a in lib[slug].actions ==> a in GATED
  }

  lemma AddedIff(held: seq<string>, needs: seq<string>)
    ensures forall x :: x in Added(held, needs) <==> x in held || x in needs
  {
    KeepIff(needs, x => x !in held);
  }

  /** The cascade adds to what was held exactly what the held docs require. */
  lemma {:induction false} RaiseIff(active: seq<string>, lib: Library, base: Caps)
    ensures forall a :: a in Raise(active, lib, base).actions <==> a in base.actions || NeedsAction(active, lib, a)
    ensures forall u :: u in Raise(active, lib, base).utils <==> u in base.utils || NeedsUtil(active, lib, u)
  {
    if active == [] {
      OnceIff(base.actions);
      OnceIff(base.utils);
    } else {
      var most, last := active[..|active| - 1], active[|active| - 1];
      RaiseIff(most, lib, base);
      AddedIff(RaisedActions(most, lib, base.actions), Needs(lib, last).actions);
      AddedIff(RaisedUtils(most, lib, base.utils), Needs(lib, last).utils);
      assert active == most + [last];
      assert forall slug :: slug in active <==> slug in most || slug == last;
    }
  }

  /** Every survivor is justified, and everything justified that was there or required survives. */
  lemma BindIff(active: seq<string>, lib: Library, base: Caps)
    ensures forall a :: a in Bind(active, lib, base).actions <==>
              (a in base.actions || NeedsAction(active, lib, a)) && ActionFloats(active, lib, a)
    ensures forall u :: u in Bind(active, lib, base).utils <==>
              NeedsUtil(active, lib, u) || (u in base.utils && UtilFloats(active, lib, u))
  {
    var raised := Raise(active, lib, base);
    RaiseIff(active, lib, base);
    KeepIff(raised.actions, a => ActionFloats(active, lib, a));
    KeepIff(raised.utils, u => UtilFloats(active, lib, u));
    forall u | NeedsUtil(active, lib, u) ensures UtilFloats(active, lib, u) {
      var slug :| slug in active && u in Needs(lib, slug).utils;
      assert Reserves(Needs(lib, slug).utils, u);
    }
  }

  /** `name`, or `name:` with nothing behind it: the util as a whole. */
  predicate Whole(entry: string, name: string) {
    ':' !in name && (entry == name || entry == name + ":")
  }

  /** A verb of the util, or the util itself. */
  predicate PartOf(entry: string, name: string) {
    ':' !in name && (entry == name || name + ":" <= entry)
  }

  /** A verb of the util: its name, a colon and the verb. */
  lemma PartVerb(entry: string, name: string) returns (verb: string)
    requires ':' !in name && name + ":" <= entry
    ensures entry == name + ":" + verb
  {
    verb := entry[|name| + 1..];
    assert entry[..|name| + 1] == name + ":" && entry == entry[..|name| + 1] + verb;
  }

  lemma PartNamed(entry: string, name: string)
    requires PartOf(entry, name)
    ensures NameOf(entry) == name
  {
    if entry == name {
      SplitIs(name, "");
    } else {
      var verb := PartVerb(entry, name);
      SplitIs(name, verb);
    }
  }

  lemma NamedPart(entry: string)
    ensures PartOf(entry, NameOf(entry)) && (IsBare(entry) ==> Whole(entry, NameOf(entry)))
  {
    SplitRestores(entry);
    var (name, verb) := (NameOf(entry), VerbOf(entry));
    if ':' in entry {
      assert entry == (name + ":") + verb && (verb == "" ==> entry == name + ":");
    }
  }

  lemma PartOfIff(entry: string, name: string)
    requires ':' !in name
    ensures NameOf(entry) == name <==> PartOf(entry, name)
    ensures NameOf(entry) == name && IsBare(entry) <==> Whole(entry, name)
  {
    NamedPart(entry);
    if PartOf(entry, name) { PartNamed(entry, name); }
    if Whole(entry, name) {
      assert PartOf(entry, name);
      SplitIs(name, "");
      assert name + ":" + "" == name + ":";
    }
  }

  /** What the floor keeps: a gated action some held doc requires, one whose canonical doc is held; an
      entry some held doc requires, or any part of a util that one requires as a whole. */
  lemma FloorIff(active: seq<string>, lib: Library, caps: Caps)
    ensures forall a :: a in Floor(active, lib, caps).actions <==>
              a in caps.actions && ((a in GATED && NeedsAction(active, lib, a)) || (a in SOURCE && SOURCE[a] in active))
    ensures forall u :: u in Floor(active, lib, caps).utils <==>
              && u in caps.utils
              && (NeedsUtil(active, lib, u)
                  || exists r, name :: NeedsUtil(active, lib, r) && Whole(r, name) && PartOf(u, name))
  {
    KeepIff(caps.actions, a => ActionFloats(active, lib, a));
    KeepIff(caps.utils, u => UtilFloats(active, lib, u));
    forall u ensures UtilFloats(active, lib, u) <==>
                       || NeedsUtil(active, lib, u)
                       || exists r, name :: NeedsUtil(active, lib, r) && Whole(r, name) && PartOf(u, name)
    {
      FloatsIff(active, lib, u);
    }
  }

  lemma FloatsIff(active: seq<string>, lib: Library, u: string)
    ensures UtilFloats(active, lib, u) <==>
              || NeedsUtil(active, lib, u)
              || exists r, name :: NeedsUtil(active, lib, r) && Whole(r, name) && PartOf(u, name)
  {
    SplitRestores(u);
    PartOfIff(u, NameOf(u));
    if UtilFloats(active, lib, u) && !NeedsUtil(active, lib, u) {
      var slug :| slug in active && Reserves(Needs(lib, slug).utils, u);
      var r :| r in Needs(lib, slug).utils && IsBare(r) && NameOf(r) == NameOf(u);
      PartOfIff(r, NameOf(u));
      assert NeedsUtil(active, lib, r) && Whole(r, NameOf(u)) && PartOf(u, NameOf(u));
    }
    if r, name :| NeedsUtil(active, lib, r) && Whole(r, name) && PartOf(u, name) {
      PartOfIff(r, name);
      PartOfIff(u, name);
      var slug :| slug in active && r in Needs(lib, slug).utils;
      assert Reserves(Needs(lib, slug).utils, u);
    }
    if NeedsUtil(active, lib, u) {
      var slug :| slug in active && u in Needs(lib, slug).utils;
      assert Reserves(Needs(lib, slug).utils, u);
    }
  }

  lemma SettingsAgain(given: map<string, string>)
    ensures Settings(Settings(given)) == Settings(given)
  {
  }

  /** The settings pass through both, whatever docs are held. */
  lemma SettingsPass(active: seq<string>, lib: Library, base: Caps, key: string)
    requires key in OFF
    ensures key in Bind(active, lib, base).settings
    ensures Bind(active, lib, base).settings[key] ==
            if key in base.settings && base.settings[key] != "" then base.settings[key] else OFF[key]
  {
    SettingsAgain(base.settings);
  }

  /** Flooring again changes nothing at all. */
  lemma FloorAgain(active: seq<string>, lib: Library, base: Caps)
    ensures Floor(active, lib, Bind(active, lib, base)) == Bind(active, lib, base)
  {
    var raised, bound := Raise(active, lib, base), Bind(active, lib, base);
    KeepIff(raised.actions, a => ActionFloats(active, lib, a));
    KeepIff(raised.utils, u => UtilFloats(active, lib, u));
    KeepAll(bound.actions, a => ActionFloats(active, lib, a));
    KeepAll(bound.utils, u => UtilFloats(active, lib, u));
    SettingsAgain(raised.settings);
  }

  lemma SourcesAreGated(a: string)
    requires a in SOURCE
    ensures a in GATED
  {
  }

  /** Raising again changes nothing exactly when the held docs require only gated kinds. */
  lemma RaiseAgainIff(active: seq<string>, lib: Library, base: Caps)
    ensures SameCaps(Raise(active, lib, Bind(active, lib, base)), Bind(active, lib, base)) <==>
            forall a :: NeedsAction(active, lib, a) ==> a in GATED
  {
    var bound := Bind(active, lib, base);
    var again := Raise(active, lib, bound);
    BindIff(active, lib, base);
    RaiseIff(active, lib, bound);
    SettingsAgain(base.settings);
    SettingsAgain(bound.settings);
    assert SameNames(again.utils, bound.utils);
    if forall a :: NeedsAction(active, lib, a) ==> a in GATED {
      forall a | NeedsAction(active, lib, a) ensures a in bound.actions {
        assert ActionFloats(active, lib, a);
      }
      assert SameNames(again.actions, bound.actions);
    } else {
      var a :| NeedsAction(active, lib, a) && a !in GATED;
      if a in SOURCE { SourcesAreGated(a); }
      assert !ActionFloats(active, lib, a) && a !in bound.actions && a in again.actions;
      assert !SameNames(again.actions, bound.actions);
    }
  }

  /** With the library as it is read, raise then floor is a fixpoint of both, and holds everything the
      held docs require. */
  lemma BindIsFixpoint(active: seq<string>, lib: Library, base: Caps)
    requires Normalized(lib)
    ensures Floor(active, lib, Bind(active, lib, base)) == Bind(active, lib, base)
    ensures SameCaps(Raise(active, lib, Bind(active, lib, base)), Bind(active, lib, base))
    ensures forall a :: NeedsAction(active, lib, a) ==> a in Bind(active, lib, base).actions
    ensures forall u :: NeedsUtil(active, lib, u) ==> u in Bind(active, lib, base).utils
  {
    FloorAgain(active, lib, base);
    RaiseAgainIff(active, lib, base);
    BindIff(active, lib, base);
    forall a | NeedsAction(active, lib, a) ensures ActionFloats(active, lib, a) {
    }
  }

  // ---------------------------------------------------------------------- "exactly the union"

  predicate IsUnion(active: seq<string>, lib: Library, caps: Caps) {
    && (forall a :: a in caps.actions ==> NeedsAction(active, lib, a))
    && (forall u :: u in caps.utils ==> NeedsUtil(active, lib, u))
    && (forall slug :: slug in active ==> forall a :: a in Needs(lib, slug).actions ==> a in caps.actions)
    && (forall slug :: slug in active ==> forall u :: u in Needs(lib, slug).utils ==> u in caps.utils)
  }

  /** The result is exactly the union of what the held docs require when, and only when, nothing that
      was opted into survives by its canonical doc alone or as a verb of a util required whole. */
  lemma UnionIff(active: seq<string>, lib: Library, base: Caps)
    requires Normalized(lib)
    ensures IsUnion(active, lib, Bind(active, lib, base)) <==>
            && (forall a :: a in base.actions && a in SOURCE && SOURCE[a] in active ==> NeedsAction(active, lib, a))
            && (forall u :: u in base.utils && UtilFloats(active, lib, u) ==> NeedsUtil(active, lib, u))
  {
    var bound := Bind(active, lib, base);
    BindIff(active, lib, base);
    BindIsFixpoint(active, lib, base);
    assert forall slug, a :: slug in active && a in Needs(lib, slug).actions ==> NeedsAction(active, lib, a);
    assert forall slug, u :: slug in active && u in Needs(lib, slug).utils ==> NeedsUtil(active, lib, u);
    if IsUnion(active, lib, bound) {
      forall a | a in base.actions && a in SOURCE && SOURCE[a] in active ensures NeedsAction(active, lib, a) {
        assert a in bound.actions;
      }
    } else {
      assert (exists a :: a in bound.actions && !NeedsAction(active, lib, a))
          || (exists u :: u in bound.utils && !NeedsUtil(active, lib, u));
    }
  }

  /** An action no held doc requires survives by its canonical doc. */
  lemma ActionOptIn()
    ensures
      var active, base := ["util-authoring"], Caps(["write_util"], [], map[]);
      "write_util" in Bind(active, map[], base).actions && !NeedsAction(active, map[], "write_util")
  {
    var active, base := ["util-authoring"], Caps(["write_util"], [], map[]);
    BindIff(active, map[], base);
    assert active[0] == "util-authoring" && ActionFloats(active, map[], "write_util");
    assert base.actions[0] == "write_util";
  }

  /** And a verb no held doc names survives with the whole util it belongs to. */
  lemma VerbOptIn(slug: string, util: string, verb: string)
    requires ':' !in util
    ensures
      var lib, entry := map[slug := Requires([], [util])], util + ":" + verb;
      && entry in Bind([slug], lib, Caps([], [entry], map[])).utils
      && !NeedsUtil([slug], lib, entry)
  {
    var active, needs, entry := [slug], Requires([], [util]), util + ":" + verb;
    var lib, base := map[slug := needs], Caps([], [entry], map[]);
    BindIff(active, lib, base);
    SplitIs(util, verb);
    assert needs.utils[0] == util && Reserves(needs.utils, entry);
    assert active[0] == slug && UtilFloats(active, lib, entry);
    assert base.utils[0] == entry;
  }

  /** A bare util survives only where a held doc reserves the whole util: a doc that names one verb of
      it never floats the rest. */
  lemma BareNeedsBare(active: seq<string>, lib: Library, base: Caps, u: string)
    requires IsBare(u) && u in Bind(active, lib, base).utils
    ensures exists r :: NeedsUtil(active, lib, r) && IsBare(r) && NameOf(r) == NameOf(u)
  {
    BindIff(active, lib, base);
    if NeedsUtil(active, lib, u) {
      assert NameOf(u) == NameOf(u);
    } else {
      var slug :| slug in active && Reserves(Needs(lib, slug).utils, u);
      var r :| r in Needs(lib, slug).utils && IsBare(r) && NameOf(r) == NameOf(u);
      assert NeedsUtil(active, lib, r);
    }
  }

  // ---------------------------------------------------------------------- monotony

  lemma FloatsMore(active: seq<string>, more: seq<string>, lib: Library)
    requires forall slug :: slug in active ==> slug in more
    ensures forall a :: ActionFloats(active, lib, a) ==> ActionFloats(more, lib, a)
    ensures forall u :: UtilFloats(active, lib, u) ==> UtilFloats(more, lib, u)
    ensures forall a :: NeedsAction(active, lib, a) ==> NeedsAction(more, lib, a)
    ensures forall u :: NeedsUtil(active, lib, u) ==> NeedsUtil(more, lib, u)
  {
    forall u | UtilFloats(active, lib, u) ensures UtilFloats(more, lib, u) {
      var slug :| slug in active && Reserves(Needs(lib, slug).utils, u);
      assert slug in more;
    }
  }

  /** Holding more docs never takes a capability away. */
  lemma MoreDocsMoreCaps(active: seq<string>, more: seq<string>, lib: Library, base: Caps)
    requires forall slug :: slug in active ==> slug in more
    ensures forall a :: a in Bind(active, lib, base).actions ==> a in Bind(more, lib, base).actions
    ensures forall u :: u in Bind(active, lib, base).utils ==> u in Bind(more, lib, base).utils
  {
    BindIff(active, lib, base);
    BindIff(more, lib, base);
    FloatsMore(active, more, lib);
  }
}
