/** A routine's model roles and the failure domains of their fallback chains (src/rsched/conformance.py). */
module Chains {
  import opened Basics

  datatype Model = Model(endpoint: string, fallbacks: seq<string>)

  datatype Endpoint = Endpoint(name: string, baseUrl: string, kind: string, keyVar: string)

  datatype Server = Server(models: map<string, Model>, endpoints: map<string, Endpoint>)

  datatype Domain = Domain(host: string, key: string)

  /** _domain: where a model's requests go and what they are paid with; None when it does not resolve. */
  function DomainOf(server: Server, name: string): Option<Domain> {
    if name !in server.models || server.models[name].endpoint !in server.endpoints then None
    else
      var ep := server.endpoints[server.models[name].endpoint];
      Some(Domain(if ep.baseUrl != "" then ep.baseUrl else "(endpoint " + ep.name + ")",
                  if ep.keyVar != "" then ep.keyVar else "(kind " + ep.kind + ")"))
  }

  function Fallbacks(server: Server, name: string): seq<string> {
    if name in server.models then server.models[name].fallbacks else []
  }

  // ---------------------------------------------------------------------- the walk

  function Unseen(names: seq<string>, seen: set<string>): seq<string> {
    if names == [] then []
    else
      Unseen(names[..|names| - 1], seen)
      + (if names[|names| - 1] in seen then [] else [names[|names| - 1]])
  }

  /** The loop of _chain_names from any of its states. */
  function Walk(server: Server, chain: seq<string>, seen: set<string>, queue: seq<string>): seq<string>
    decreases server.models.Keys - seen, |queue|
  {
    if queue == [] then chain
    else if queue[0] in seen || queue[0] !in server.models then Walk(server, chain, seen, queue[1..])
    else
      var fb, now := queue[0], seen + {queue[0]};
      Walk(server, chain + [fb], now, queue[1..] + Unseen(Fallbacks(server, fb), now))
  }

  function ChainOf(server: Server, name: string): seq<string> {
    if name !in server.models then [] else Walk(server, [name], {name}, Fallbacks(server, name))
  }

  method Extend(queue: seq<string>, names: seq<string>, seen: set<string>) returns (longer: seq<string>)
    ensures longer == queue + Unseen(names, seen)
  {
    longer := queue;
    var i := 0;
    while i < |names|
      invariant i <= |names| && longer == queue + Unseen(names[..i], seen)
    {
      assert names[..i + 1][..i] == names[..i];
      if names[i] !in seen {
        longer := longer + [names[i]];
      }
      i := i + 1;
    }
    assert names[..|names|] == names;
  }

  method ChainNames(server: Server, name: string) returns (chain: seq<string>)
    ensures chain == ChainOf(server, name)
  {
    if name !in server.models {
      return [];
    }
    chain := [name];
    var seen, queue := {name}, server.models[name].fallbacks;
    while queue != []
      invariant Walk(server, chain, seen, queue) == ChainOf(server, name)
      decreases server.models.Keys - seen, |queue|
    {
      var fb := queue[0];
      queue := queue[1..];
      if fb !in seen && fb in server.models {
        seen := seen + {fb};
        chain := chain + [fb];
        queue := Extend(queue, server.models[fb].fallbacks, seen);
      }
    }
  }

  // ---------------------------------------------------------------------- what a breadth-first chain is

  /** Place `pos` of the fallbacks of the chain's member `parent`. */
  datatype Place = Place(parent: nat, pos: nat)

  predicate Before(a: Place, b: Place) {
    a.parent < b.parent || (a.parent == b.parent && a.pos < b.pos)
  }

  predicate Names(server: Server, chain: seq<string>, a: Place, name: string) {
    && a.parent < |chain|
    && a.pos < |Fallbacks(server, chain[a.parent])|
    && Fallbacks(server, chain[a.parent])[a.pos] == name
  }

  /** `a` is where the chain first names `name`. */
  ghost predicate FirstNamed(server: Server, chain: seq<string>, a: Place, name: string) {
    Names(server, chain, a, name) && forall b :: Names(server, chain, b, name) ==> !Before(b, a)
  }

  /** The chain of `name`, in terms of nothing but the catalog: it begins with `name`; repeats nothing;
      holds every catalog model its members name; and each later member was first named by an earlier
      one, in the order of those first namings. */
  ghost predicate BreadthFirst(server: Server, name: string, chain: seq<string>) {
    && chain != [] && chain[0] == name
    && (forall i, j :: 0 <= i < j < |chain| ==> chain[i] != chain[j])
    && (forall i :: 0 <= i < |chain| ==> chain[i] in server.models)
    && Closed(server, chain)
    && exists first: seq<Place> :: Ordered(server, chain, first)
  }

  ghost predicate Closed(server: Server, chain: seq<string>) {
    forall a, x {:trigger Kept(server, chain, a, x)} :: Names(server, chain, a, x) ==> Kept(server, chain, a, x)
  }

  ghost predicate Kept(server: Server, chain: seq<string>, a: Place, x: string) {
    x in server.models ==> x in chain
  }

  ghost predicate Ordered(server: Server, chain: seq<string>, first: seq<Place>) {
    && |first| == |chain|
    && (forall i :: 0 < i < |chain| ==> first[i].parent < i && FirstNamed(server, chain, first[i], chain[i]))
    && (forall i, j :: 0 < i < j < |chain| ==> Before(first[i], first[j]))
  }

  // the walk's invariant, with the place each name in the chain and in the queue came from

  ghost predicate Walking(server: Server, name: string, chain: seq<string>, first: seq<Place>,
                          queue: seq<string>, places: seq<Place>)
  {
    && chain != [] && chain[0] == name && |first| == |chain| && |places| == |queue|
    && (forall i, j :: 0 <= i < j < |chain| ==> chain[i] != chain[j])
    && (forall i :: 0 <= i < |chain| ==> chain[i] in server.models)
    && (forall i :: 0 < i < |chain| ==> first[i].parent < i && Names(server, chain, first[i], chain[i]))
    && (forall k :: 0 <= k < |queue| ==> Names(server, chain, places[k], queue[k]))
    && Sorted(first[1..] + places)
    && Covered(server, chain, first, places)
  }

  /** Every name the chain's members have is queued, is in the chain already, or is no model. */
  ghost predicate Covered(server: Server, chain: seq<string>, first: seq<Place>, places: seq<Place>)
    requires |first| == |chain|
  {
    forall a, x {:trigger CoveredAt(server, chain, first, places, a, x)} ::
      Names(server, chain, a, x) ==> CoveredAt(server, chain, first, places, a, x)
  }

  ghost predicate CoveredAt(server: Server, chain: seq<string>, first: seq<Place>, places: seq<Place>,
                            a: Place, x: string)
    requires |first| == |chain|
  {
    a in places || Found(chain, first, a, x) || x !in server.models
  }

  ghost predicate Sorted(places: seq<Place>) {
    forall i, j :: 0 <= i < j < |places| ==> Before(places[i], places[j])
  }

  /** `x` is already in the chain, and was named there no later than at `a`. */
  ghost predicate Found(chain: seq<string>, first: seq<Place>, a: Place, x: string)
    requires |first| == |chain|
  {
    exists i :: 0 <= i < |chain| && chain[i] == x && (i == 0 || !Before(a, first[i]))
  }

  /** The places of the names that Unseen keeps. */
  function UnseenPlaces(names: seq<string>, seen: set<string>, parent: nat): seq<Place> {
    if names == [] then []
    else
      UnseenPlaces(names[..|names| - 1], seen, parent)
      + (if names[|names| - 1] in seen then [] else [Place(parent, |names| - 1)])
  }

  lemma {:induction false} UnseenPlacesAre(names: seq<string>, seen: set<string>, parent: nat)
    ensures
      var places := UnseenPlaces(names, seen, parent);
      && |places| == |Unseen(names, seen)|
      && (forall k :: 0 <= k < |places| ==>
            places[k].parent == parent && places[k].pos < |names| && names[places[k].pos] == Unseen(names, seen)[k])
      && Sorted(places)
      && (forall q :: 0 <= q < |names| && names[q] !in seen ==> Place(parent, q) in places)
  {
    if names != [] { UnseenPlacesAre(names[..|names| - 1], seen, parent); }
  }

  lemma SortedPart(a: seq<Place>, b: seq<Place>)
    requires Sorted(a + b)
    ensures Sorted(a) && Sorted(b)
    ensures forall i, j :: 0 <= i < |a| && 0 <= j < |b| ==> Before(a[i], b[j])
  {
    var c := a + b;
    assert forall i :: 0 <= i < |a| ==> c[i] == a[i];
    assert forall j :: 0 <= j < |b| ==> c[|a| + j] == b[j];
    forall i, j | 0 <= i < |a| && 0 <= j < |b| ensures Before(a[i], b[j]) {
      assert Before(c[i], c[|a| + j]);
    }
    forall i, j | 0 <= i < j < |b| ensures Before(b[i], b[j]) {
      assert Before(c[|a| + i], c[|a| + j]);
    }
  }

  lemma SortedJoin(a: seq<Place>, b: seq<Place>)
    requires Sorted(a) && Sorted(b)
    requires forall i, j :: 0 <= i < |a| && 0 <= j < |b| ==> Before(a[i], b[j])
    ensures Sorted(a + b)
  {
  }

  /** A queued name that is in the chain was named there earlier. */
  lemma QueuedIsFound(server: Server, name: string, chain: seq<string>, first: seq<Place>,
                      queue: seq<string>, places: seq<Place>)
    requires Walking(server, name, chain, first, queue, places) && queue != [] && queue[0] in chain
    ensures Found(chain, first, places[0], queue[0])
  {
    SortedPart(first[1..], places);
    var i :| 0 <= i < |chain| && chain[i] == queue[0];
    if i > 0 {
      assert first[1..][i - 1] == first[i];
      assert Before(first[i], places[0]);
    }
  }

  lemma SkipSorted(first: seq<Place>, places: seq<Place>)
    requires places != [] && Sorted(first + places)
    ensures Sorted(first + places[1..])
  {
    SortedPart(first, places);
    assert places == [places[0]] + places[1..];
    SortedPart([places[0]], places[1..]);
    SortedJoin(first, places[1..]);
  }

  lemma SkipStep(server: Server, name: string, chain: seq<string>, first: seq<Place>,
                                    queue: seq<string>, places: seq<Place>)
    requires Walking(server, name, chain, first, queue, places) && queue != []
    requires queue[0] in chain || queue[0] !in server.models
    ensures Walking(server, name, chain, first, queue[1..], places[1..])
  {
    SkipSorted(first[1..], places);
    if queue[0] in chain {
      QueuedIsFound(server, name, chain, first, queue, places);
    }
    assert Names(server, chain, places[0], queue[0]);
    SkipCovers(server, chain, first, places, queue[0]);
  }

  lemma SkipCovers(server: Server, chain: seq<string>, first: seq<Place>,
                                      places: seq<Place>, fb: string)
    requires |first| == |chain| && places != [] && Covered(server, chain, first, places)
    requires Names(server, chain, places[0], fb) && (Found(chain, first, places[0], fb) || fb !in server.models)
    ensures Covered(server, chain, first, places[1..])
  {
    forall a, x | Names(server, chain, a, x) ensures CoveredAt(server, chain, first, places[1..], a, x) {
      assert CoveredAt(server, chain, first, places, a, x);
    }
  }

  lemma FoundLonger(chain: seq<string>, first: seq<Place>, fb: string, place: Place, a: Place,
                                       x: string)
    requires |first| == |chain| && Found(chain, first, a, x)
    ensures Found(chain + [fb], first + [place], a, x)
  {
    var i :| 0 <= i < |chain| && chain[i] == x && (i == 0 || !Before(a, first[i]));
    assert (chain + [fb])[i] == x && (first + [place])[i] == first[i];
  }

  /** Taking a queued name puts its own fallbacks behind everything queued: in order, after every place
      of an earlier member. */
  lemma TakenSorted(first: seq<Place>, places: seq<Place>, more: seq<Place>, n: nat)
    requires Sorted(first + places) && places != []
    requires forall i :: 0 <= i < |first| ==> first[i].parent < n
    requires forall k :: 0 <= k < |places| ==> places[k].parent < n
    requires Sorted(more) && forall k :: 0 <= k < |more| ==> more[k].parent == n
    ensures Sorted(first + [places[0]] + (places[1..] + more))
  {
    var all := first + places;
    assert forall i :: 0 <= i < |all| ==> all[i].parent < n;
    SortedJoin(all, more);
    assert first + [places[0]] + (places[1..] + more) == all + more;
  }

  lemma TakeMembers(server: Server, chain: seq<string>, first: seq<Place>, fb: string, a: Place)
    requires |first| == |chain| && Names(server, chain, a, fb)
    requires forall i :: 0 < i < |chain| ==> first[i].parent < i && Names(server, chain, first[i], chain[i])
    ensures
      var longer, first' := chain + [fb], first + [a];
      forall i :: 0 < i < |longer| ==> first'[i].parent < i && Names(server, longer, first'[i], longer[i])
  {
  }

  lemma TakeNames(server: Server, chain: seq<string>, fb: string, queue: seq<string>,
                                     places: seq<Place>, seen: set<string>)
    requires |places| == |queue| && forall k :: 0 <= k < |queue| ==> Names(server, chain, places[k], queue[k])
    ensures
      var names := Fallbacks(server, fb);
      var queue', places' := queue + Unseen(names, seen), places + UnseenPlaces(names, seen, |chain|);
      |places'| == |queue'| && forall k :: 0 <= k < |queue'| ==> Names(server, chain + [fb], places'[k], queue'[k])
  {
    UnseenPlacesAre(Fallbacks(server, fb), seen, |chain|);
  }

  lemma {:induction false} TakeStep(server: Server, name: string, chain: seq<string>, first: seq<Place>,
                 queue: seq<string>, places: seq<Place>, seen: set<string>)
    requires Walking(server, name, chain, first, queue, places) && queue != []
    requires queue[0] !in chain && queue[0] in server.models
    requires forall x :: x in seen <==> x in chain || x == queue[0]
    ensures
      var fb := queue[0];
      Walking(server, name, chain + [fb], first + [places[0]],
              queue[1..] + Unseen(Fallbacks(server, fb), seen),
              places[1..] + UnseenPlaces(Fallbacks(server, fb), seen, |chain|))
  {
    assert Names(server, chain, places[0], queue[0]);
    TakeMembers(server, chain, first, queue[0], places[0]);
    TakeNames(server, chain, queue[0], queue[1..], places[1..], seen);
    TakeOrder(server, name, chain, first, queue, places, seen);
    TakeCovered(server, name, chain, first, queue, places, seen);
  }

  lemma {:induction false} TakeOrder(server: Server, name: string, chain: seq<string>, first: seq<Place>,
                                     queue: seq<string>, places: seq<Place>, seen: set<string>)
    requires Walking(server, name, chain, first, queue, places) && queue != []
    ensures Sorted((first + [places[0]])[1..]
                   + (places[1..] + UnseenPlaces(Fallbacks(server, queue[0]), seen, |chain|)))
  {
    UnseenPlacesAre(Fallbacks(server, queue[0]), seen, |chain|);
    assert forall i :: 0 <= i < |chain| - 1 ==> first[1..][i].parent < |chain|;
    TakenSorted(first[1..], places, UnseenPlaces(Fallbacks(server, queue[0]), seen, |chain|), |chain|);
    assert (first + [places[0]])[1..] == first[1..] + [places[0]];
  }

  lemma {:induction false} TakeCovered(server: Server, name: string, chain: seq<string>, first: seq<Place>,
                                       queue: seq<string>, places: seq<Place>, seen: set<string>)
    requires Walking(server, name, chain, first, queue, places) && queue != []
    requires forall x :: x in seen <==> x in chain || x == queue[0]
    ensures Covered(server, chain + [queue[0]], first + [places[0]],
                    places[1..] + UnseenPlaces(Fallbacks(server, queue[0]), seen, |chain|))
  {
    forall a, x | Names(server, chain + [queue[0]], a, x)
      ensures CoveredAt(server, chain + [queue[0]], first + [places[0]],
                        places[1..] + UnseenPlaces(Fallbacks(server, queue[0]), seen, |chain|), a, x)
    {
      TakeCovers(server, name, chain, first, queue, places, seen, a, x);
    }
  }

  lemma TakeCovers(server: Server, name: string, chain: seq<string>, first: seq<Place>,
                                      queue: seq<string>, places: seq<Place>, seen: set<string>, a: Place, x: string)
    requires Walking(server, name, chain, first, queue, places) && queue != []
    requires forall y :: y in seen <==> y in chain || y == queue[0]
    requires Names(server, chain + [queue[0]], a, x)
    ensures CoveredAt(server, chain + [queue[0]], first + [places[0]],
                      places[1..] + UnseenPlaces(Fallbacks(server, queue[0]), seen, |chain|), a, x)
  {
    var more := UnseenPlaces(Fallbacks(server, queue[0]), seen, |chain|);
    if a.parent < |chain| {
      assert Names(server, chain, a, x) && Names(server, chain, places[0], queue[0]);
      OldCovered(server, chain, first, places, queue[0], more, a, x);
    } else {
      assert forall i :: 0 < i <= |chain| ==> (first + [places[0]])[i].parent < |chain|;
      NewCovered(server, chain, first + [places[0]], queue[0], places[1..], seen, a, x);
    }
  }

  lemma OldCovered(server: Server, chain: seq<string>, first: seq<Place>, places: seq<Place>,
                                      fb: string, more: seq<Place>, a: Place, x: string)
    requires |first| == |chain| && places != [] && CoveredAt(server, chain, first, places, a, x)
    requires a == places[0] ==> x == fb
    ensures CoveredAt(server, chain + [fb], first + [places[0]], places[1..] + more, a, x)
  {
    if Found(chain, first, a, x) {
      FoundLonger(chain, first, fb, places[0], a, x);
    } else if a == places[0] {
      assert (chain + [fb])[|chain|] == x && (first + [places[0]])[|chain|] == a;
    }
  }

  lemma NewCovered(server: Server, chain: seq<string>, first: seq<Place>, fb: string,
                                      left: seq<Place>, seen: set<string>, a: Place, x: string)
    requires |first| == |chain| + 1 && forall i :: 0 < i <= |chain| ==> first[i].parent < |chain|
    requires forall y :: y in seen <==> y in chain || y == fb
    requires a.parent == |chain| && a.pos < |Fallbacks(server, fb)| && Fallbacks(server, fb)[a.pos] == x
    ensures CoveredAt(server, chain + [fb], first,
                      left + UnseenPlaces(Fallbacks(server, fb), seen, |chain|), a, x)
  {
    UnseenPlacesAre(Fallbacks(server, fb), seen, |chain|);
    if x in seen {
      assert x in chain + [fb];
      var i :| 0 <= i <= |chain| && (chain + [fb])[i] == x;
      assert i == 0 || !Before(a, first[i]);
    } else {
      assert a == Place(|chain|, a.pos);
    }
  }

  /** The walk ends in a breadth-first chain. */
  lemma {:induction false} WalkOrdered(server: Server, name: string, chain: seq<string>, first: seq<Place>,
                                       seen: set<string>, queue: seq<string>, places: seq<Place>)
    requires Walking(server, name, chain, first, queue, places)
    requires forall x :: x in seen <==> x in chain
    ensures BreadthFirst(server, name, Walk(server, chain, seen, queue))
    decreases server.models.Keys - seen, |queue|
  {
    if queue == [] {
      WalkEnds(server, name, chain, first);
    } else if queue[0] in seen || queue[0] !in server.models {
      SkipStep(server, name, chain, first, queue, places);
      WalkOrdered(server, name, chain, first, seen, queue[1..], places[1..]);
    } else {
      var fb, now := queue[0], seen + {queue[0]};
      TakeStep(server, name, chain, first, queue, places, now);
      WalkOrdered(server, name, chain + [fb], first + [places[0]], now,
                  queue[1..] + Unseen(Fallbacks(server, fb), now),
                  places[1..] + UnseenPlaces(Fallbacks(server, fb), now, |chain|));
    }
  }

  lemma WalkEnds(server: Server, name: string, chain: seq<string>, first: seq<Place>)
    requires Walking(server, name, chain, first, [], [])
    ensures BreadthFirst(server, name, chain)
  {
    assert first[1..] + [] == first[1..];
    forall i | 0 < i < |chain| ensures FirstNamed(server, chain, first[i], chain[i]) {
      NoneBefore(server, chain, first, i);
    }
    forall i, j | 0 < i < j < |chain| ensures Before(first[i], first[j]) {
      assert Before(first[1..][i - 1], first[1..][j - 1]);
    }
    assert Ordered(server, chain, first);
    AllKept(server, chain, first);
  }

  lemma NoneBefore(server: Server, chain: seq<string>, first: seq<Place>, i: nat)
    requires |first| == |chain| && Covered(server, chain, first, []) && 0 < i < |chain|
    requires Names(server, chain, first[i], chain[i]) && chain[i] in server.models
    requires forall i, j :: 0 <= i < j < |chain| ==> chain[i] != chain[j]
    ensures FirstNamed(server, chain, first[i], chain[i])
  {
    forall b | Names(server, chain, b, chain[i]) ensures !Before(b, first[i]) {
      assert CoveredAt(server, chain, first, [], b, chain[i]);
    }
  }

  lemma AllKept(server: Server, chain: seq<string>, first: seq<Place>)
    requires |first| == |chain| && Covered(server, chain, first, [])
    ensures Closed(server, chain)
  {
    forall a, x | Names(server, chain, a, x) ensures Kept(server, chain, a, x) {
      assert CoveredAt(server, chain, first, [], a, x);
    }
  }

  lemma Start(server: Server, name: string) returns (places: seq<Place>)
    requires name in server.models
    ensures Walking(server, name, [name], [Place(0, 0)], Fallbacks(server, name), places)
  {
    var names := Fallbacks(server, name);
    places := seq(|names|, q requires 0 <= q < |names| => Place(0, q));
    assert [Place(0, 0)][1..] + places == places;
    forall a, x | Names(server, [name], a, x) ensures a in places {
      assert places[a.pos] == a;
    }
  }

  /** What _chain_names returns for a catalog model, cycles in the catalog or not. */
  lemma ChainIsBreadthFirst(server: Server, name: string)
    requires name in server.models
    ensures BreadthFirst(server, name, ChainOf(server, name))
  {
    var places := Start(server, name);
    WalkOrdered(server, name, [name], [Place(0, 0)], {name}, Fallbacks(server, name), places);
  }

  // ---------------------------------------------------------------------- what follows from it

  predicate Agree(c: seq<string>, d: seq<string>, n: nat) {
    n <= |c| && n <= |d| && forall k :: 0 <= k < n ==> c[k] == d[k]
  }

  /** Where two breadth-first chains part, the place of the next member in one is after the other's. */
  lemma NextIsFirst(server: Server, c: seq<string>, f: seq<Place>, d: seq<string>,
                                       g: seq<Place>, n: nat)
    requires Ordered(server, c, f) && Ordered(server, d, g) && Closed(server, d)
    requires 0 < n < |c| && n < |d| && Agree(c, d, n) && c[n] != d[n] && c[n] in server.models
    requires forall k :: 0 <= k < n ==> c[k] != c[n]
    ensures Before(g[n], f[n])
  {
    var j := NamedAlike(server, c, f, d, n);
    LaterPlace(server, d, g, n, j, f[n]);
  }

  /** The next member of one chain is a later member of the other, and is named there at the same place. */
  lemma NamedAlike(server: Server, c: seq<string>, f: seq<Place>, d: seq<string>, n: nat)
    returns (j: nat)
    requires Ordered(server, c, f) && Closed(server, d)
    requires 0 < n < |c| && n < |d| && Agree(c, d, n) && c[n] != d[n] && c[n] in server.models
    requires forall k :: 0 <= k < n ==> c[k] != c[n]
    ensures n < j < |d| && Names(server, d, f[n], d[j])
  {
    var x, a := c[n], f[n];
    assert c[a.parent] == d[a.parent];
    assert Names(server, d, a, x) && Kept(server, d, a, x);
    j := IndexOf(d, x);
  }

  lemma LaterPlace(server: Server, d: seq<string>, g: seq<Place>, n: nat, j: nat, a: Place)
    requires Ordered(server, d, g) && 0 < n < j < |d| && Names(server, d, a, d[j])
    ensures Before(g[n], a)
  {
    assert FirstNamed(server, d, g[j], d[j]) && !Before(a, g[j]);
    assert Before(g[n], g[j]);
  }

  lemma Parts(server: Server, c: seq<string>, f: seq<Place>, d: seq<string>, g: seq<Place>, n: nat)
    requires Ordered(server, c, f) && Closed(server, c) && Ordered(server, d, g) && Closed(server, d)
    requires 0 < n < |c| && n < |d| && Agree(c, d, n) && c[n] in server.models && d[n] in server.models
    requires forall k :: 0 <= k < n ==> c[k] != c[n] && d[k] != d[n]
    ensures c[n] == d[n]
  {
    if c[n] != d[n] {
      NextIsFirst(server, c, f, d, g, n);
      NextIsFirst(server, d, g, c, f, n);
    }
  }

  lemma NoParting(server: Server, name: string, c: seq<string>, d: seq<string>, n: nat)
    requires BreadthFirst(server, name, c) && BreadthFirst(server, name, d)
    requires n < |c| && n < |d| && Agree(c, d, n)
    ensures c[n] == d[n]
  {
    if n > 0 {
      var f: seq<Place> :| Ordered(server, c, f);
      var g: seq<Place> :| Ordered(server, d, g);
      Parts(server, c, f, d, g, n);
    }
  }

  lemma NoMore(server: Server, c: seq<string>, d: seq<string>, g: seq<Place>)
    requires Closed(server, c) && Ordered(server, d, g) && 0 < |c| < |d| && Agree(c, d, |c|)
    ensures d[|c|] in server.models ==> exists i :: 0 <= i < |c| && d[i] == d[|c|]
  {
    var a, x := g[|c|], d[|c|];
    assert Names(server, d, a, x) && c[a.parent] == d[a.parent];
    assert Names(server, c, a, x) && Kept(server, c, a, x);
    if x in server.models {
      var i := IndexOf(c, x);
      assert d[i] == c[i];
    }
  }

  lemma NotLonger(server: Server, name: string, c: seq<string>, d: seq<string>)
    requires BreadthFirst(server, name, c) && BreadthFirst(server, name, d) && |c| <= |d| && Agree(c, d, |c|)
    ensures |c| == |d|
  {
    if |c| < |d| {
      var g: seq<Place> :| Ordered(server, d, g);
      NoMore(server, c, d, g);
    }
  }

  lemma {:induction false} AllAgree(c: seq<string>, d: seq<string>, n: nat)
    requires n <= |c| && n <= |d| && forall m: nat :: m < n && Agree(c, d, m) ==> c[m] == d[m]
    ensures Agree(c, d, n)
  {
    if n > 0 { AllAgree(c, d, n - 1); }
  }

  /** The description is complete: a model has only one breadth-first chain. */
  lemma OneChain(server: Server, name: string, c: seq<string>, d: seq<string>)
    requires BreadthFirst(server, name, c) && BreadthFirst(server, name, d)
    ensures c == d
  {
    forall m: nat | m < Min(|c|, |d|) && Agree(c, d, m) ensures c[m] == d[m] {
      NoParting(server, name, c, d, m);
    }
    AllAgree(c, d, Min(|c|, |d|));
    if |c| <= |d| {
      NotLonger(server, name, c, d);
    } else {
      NotLonger(server, name, d, c);
    }
  }

  /** The catalog models within n fallback steps of `name`. */
  ghost function Ball(server: Server, name: string, n: nat): set<string> {
    if n == 0 then {name} * server.models.Keys
    else
      var inner := Ball(server, name, n - 1);
      inner + set m, f | m in inner && f in Fallbacks(server, m) && f in server.models :: f
  }

  /** The members in `near` come first. */
  predicate Prefix(chain: seq<string>, near: set<string>) {
    forall i, j :: 0 <= i < j < |chain| && chain[j] in near ==> chain[i] in near
  }

  /** Everything within reach is in the chain, and what is as near as a member comes no later: for each
      n the models within n steps are a prefix of the chain. */
  lemma {:induction false} BallIsPrefix(server: Server, name: string, chain: seq<string>, n: nat)
    requires BreadthFirst(server, name, chain)
    ensures forall x :: x in Ball(server, name, n) ==> x in chain
    ensures Prefix(chain, Ball(server, name, n))
  {
    if n > 0 {
      BallIsPrefix(server, name, chain, n - 1);
      BallInside(server, name, chain, n);
      PrefixStep(server, name, chain, n);
    } else {
      BallZero(server, name, chain);
    }
  }

  lemma BallZero(server: Server, name: string, chain: seq<string>)
    requires BreadthFirst(server, name, chain)
    ensures forall x :: x in Ball(server, name, 0) ==> x in chain
    ensures Prefix(chain, Ball(server, name, 0))
  {
    assert chain[0] in chain;
    forall j | 0 < j < |chain| ensures chain[j] !in Ball(server, name, 0) {
      assert chain[0] != chain[j];
    }
  }

  lemma PrefixStep(server: Server, name: string, chain: seq<string>, n: nat)
    requires BreadthFirst(server, name, chain) && n > 0
    requires forall x :: x in Ball(server, name, n - 1) ==> x in chain
    requires Prefix(chain, Ball(server, name, n - 1))
    ensures Prefix(chain, Ball(server, name, n))
  {
    var ball := Ball(server, name, n);
    forall i, j | 0 <= i < j < |chain| && chain[j] in ball ensures chain[i] in ball {
      if i > 0 {
        Nearer(server, name, chain, n, i, j);
      } else {
        NameInBall(server, name, n);
      }
    }
  }

  lemma BallInside(server: Server, name: string, chain: seq<string>, n: nat)
    requires n > 0 && Closed(server, chain) && forall x :: x in Ball(server, name, n - 1) ==> x in chain
    ensures forall x :: x in Ball(server, name, n) ==> x in chain
  {
    var inner := Ball(server, name, n - 1);
    forall x | x in Ball(server, name, n) ensures x in chain {
      if x !in inner {
        var m :| m in inner && x in Fallbacks(server, m);
        var p := IndexOf(chain, m);
        var q := IndexOf(Fallbacks(server, m), x);
        assert Names(server, chain, Place(p, q), x) && Kept(server, chain, Place(p, q), x);
      }
    }
  }

  lemma IndexOf(s: seq<string>, x: string) returns (k: nat)
    requires x in s
    ensures k < |s| && s[k] == x
  {
    k :| k < |s| && s[k] == x;
  }

  lemma {:induction false} NameInBall(server: Server, name: string, n: nat)
    requires name in server.models
    ensures name in Ball(server, name, n)
  {
    if n > 0 { NameInBall(server, name, n - 1); }
  }

  lemma ParentsInOrder(server: Server, chain: seq<string>, first: seq<Place>, i: nat, j: nat,
                                          a: Place)
    requires Ordered(server, chain, first) && 0 < i < j < |chain| && Names(server, chain, a, chain[j])
    ensures first[i].parent <= first[j].parent <= a.parent
  {
    assert Before(first[i], first[j]) && !Before(a, first[j]);
  }

  lemma Nearer(server: Server, name: string, chain: seq<string>, n: nat, i: nat, j: nat)
    requires BreadthFirst(server, name, chain) && n > 0 && 0 < i < j < |chain|
    requires chain[j] in Ball(server, name, n)
    requires forall x :: x in Ball(server, name, n - 1) ==> x in chain
    requires Prefix(chain, Ball(server, name, n - 1))
    ensures chain[i] in Ball(server, name, n)
  {
    var inner := Ball(server, name, n - 1);
    if chain[j] !in inner {
      var first: seq<Place> :| Ordered(server, chain, first);
      var m :| m in inner && chain[j] in Fallbacks(server, m);
      var p := IndexOf(chain, m);
      var q := IndexOf(Fallbacks(server, m), chain[j]);
      ParentsInOrder(server, chain, first, i, j, Place(p, q));
      InsideStep(server, name, chain, first[i], i, p, n);
    }
  }

  lemma InsideStep(server: Server, name: string, chain: seq<string>, a: Place, i: nat, p: nat,
                                      n: nat)
    requires n > 0 && i < |chain| && p < |chain| && Names(server, chain, a, chain[i]) && chain[i] in server.models
    requires a.parent <= p && chain[p] in Ball(server, name, n - 1) && Prefix(chain, Ball(server, name, n - 1))
    ensures chain[i] in Ball(server, name, n)
  {
    BallStep(server, name, chain[a.parent], chain[i], n);
  }

  /** And nothing else is: every member is within reach. */
  lemma {:induction false} MembersReached(server: Server, name: string, chain: seq<string>, first: seq<Place>, i: nat)
    requires Ordered(server, chain, first) && i < |chain| && chain[0] == name
    requires forall i :: 0 <= i < |chain| ==> chain[i] in server.models
    ensures chain[i] in Ball(server, name, i)
  {
    if i > 0 {
      var a := first[i];
      MembersReached(server, name, chain, first, a.parent);
      Widens(server, name, a.parent, i - 1);
      assert Names(server, chain, a, chain[i]);
      BallStep(server, name, chain[a.parent], chain[i], i);
    }
  }

  lemma BallStep(server: Server, name: string, m: string, x: string, n: nat)
    requires n > 0 && m in Ball(server, name, n - 1) && x in Fallbacks(server, m) && x in server.models
    ensures x in Ball(server, name, n)
  {
  }

  lemma {:induction false} Widens(server: Server, name: string, n: nat, m: nat)
    requires n <= m
    ensures Ball(server, name, n) <= Ball(server, name, m)
  {
    if n < m { Widens(server, name, n, m - 1); }
  }

  /** Within reach of a model by fallbacks, in any number of steps. */
  ghost predicate Reaches(server: Server, name: string, x: string) {
    exists n: nat :: x in Ball(server, name, n)
  }

  /** _chain_names, cycles or not: the model first, no name twice, exactly the models its fallbacks
      reach, the nearer never after the farther. */
  lemma ChainReaches(server: Server, name: string)
    requires name in server.models
    ensures
      var chain := ChainOf(server, name);
      && chain != [] && chain[0] == name
      && (forall i, j :: 0 <= i < j < |chain| ==> chain[i] != chain[j])
      && (forall x :: x in chain <==> Reaches(server, name, x))
      && (forall n: nat :: Prefix(chain, Ball(server, name, n)))
  {
    var chain := ChainOf(server, name);
    ChainIsBreadthFirst(server, name);
    forall x ensures x in chain <==> Reaches(server, name, x) {
      if x in chain {
        var i := IndexOf(chain, x);
        var first: seq<Place> :| Ordered(server, chain, first);
        MembersReached(server, name, chain, first, i);
      }
      if n: nat :| x in Ball(server, name, n) {
        BallIsPrefix(server, name, chain, n);
      }
    }
    forall n: nat ensures Prefix(chain, Ball(server, name, n)) {
      BallIsPrefix(server, name, chain, n);
    }
  }

  // ---------------------------------------------------------------------- shared failure domains

  /** A role's problem: nothing to fall back to, or one host or one credential behind every member. */
  datatype Problem =
    | Alone(role: string, name: string)
    | Shared(role: string, name: string, chain: seq<string>, host: Option<string>, key: Option<string>)

  function Domains(server: Server, chain: seq<string>): seq<Domain> {
    if chain == [] then []
    else
      var d := DomainOf(server, chain[|chain| - 1]);
      Domains(server, chain[..|chain| - 1]) + (if d.Some? then [d.value] else [])
  }

  datatype Axis = Host | Key

  function On(d: Domain, axis: Axis): string {
    if axis.Host? then d.host else d.key
  }

  function Values(domains: seq<Domain>, axis: Axis): set<string> {
    set d | d in domains :: On(d, axis)
  }

  /** The one value that `values` holds, when it holds just one. */
  function Only(values: set<string>): (r: Option<string>)
    ensures r.Some? <==> exists v :: v in values && values == {v}
    ensures r.Some? ==> values == {r.value}
  {
    if exists v :: v in values && values == {v} then
      var v :| v in values && values == {v};
      Some(v)
    else None
  }

  function ProblemOf(server: Server, role: string, name: string): Option<Problem> {
    if name !in server.models then None
    else
      var chain := ChainOf(server, name);
      var domains := Domains(server, chain);
      if |chain| < 2 then Some(Alone(role, name))
      else if domains == [] then None
      else
        var host, key := Only(Values(domains, Host)), Only(Values(domains, Key));
        if host.None? && key.None? then None else Some(Shared(role, name, chain, host, key))
  }

  /** Over the roles in the order they are given, which is sorted by role. */
  function Problems(server: Server, roles: seq<(string, string)>): seq<Problem> {
    if roles == [] then []
    else
      var (role, name) := roles[|roles| - 1];
      var p := ProblemOf(server, role, name);
      Problems(server, roles[..|roles| - 1]) + (if p.Some? then [p.value] else [])
  }

  method ReadDomains(server: Server, chain: seq<string>) returns (domains: seq<Domain>)
    ensures domains == Domains(server, chain)
  {
    domains := [];
    var i := 0;
    while i < |chain|
      invariant i <= |chain| && domains == Domains(server, chain[..i])
    {
      assert chain[..i + 1][..i] == chain[..i];
      var d := DomainOf(server, chain[i]);
      if d.Some? {
        domains := domains + [d.value];
      }
      i := i + 1;
    }
    assert chain[..|chain|] == chain;
  }

  method ChainProblems(server: Server, roles: seq<(string, string)>) returns (out: seq<Problem>)
    ensures out == Problems(server, roles)
  {
    out := [];
    var i := 0;
    while i < |roles|
      invariant i <= |roles| && out == Problems(server, roles[..i])
    {
      var (role, name) := roles[i];
      assert roles[..i + 1][..i] == roles[..i];
      if name in server.models {
        var p := RoleProblem(server, role, name);
        if p.Some? {
          out := out + [p.value];
        }
      }
      i := i + 1;
    }
    assert roles[..|roles|] == roles;
  }

  method RoleProblem(server: Server, role: string, name: string) returns (p: Option<Problem>)
    requires name in server.models
    ensures p == ProblemOf(server, role, name)
  {
    var chain := ChainNames(server, name);
    if |chain| < 2 {
      return Some(Alone(role, name));
    }
    var domains := ReadDomains(server, chain);
    if domains == [] {
      return None;
    }
    var host, key := Only(Values(domains, Host)), Only(Values(domains, Key));
    p := if host.Some? || key.Some? then Some(Shared(role, name, chain, host, key)) else None;
  }

  lemma {:induction false} DomainsHold(server: Server, chain: seq<string>)
    ensures forall d :: d in Domains(server, chain) <==> exists m :: m in chain && DomainOf(server, m) == Some(d)
  {
    if chain != [] {
      var most, last := chain[..|chain| - 1], chain[|chain| - 1];
      DomainsHold(server, most);
      assert chain == most + [last];
      assert last in chain;
    }
  }

  ghost predicate AllOn(server: Server, name: string, axis: Axis, v: string) {
    && (exists m :: Reaches(server, name, m) && DomainOf(server, m).Some?)
    && forall m :: Reaches(server, name, m) && DomainOf(server, m).Some? ==> On(DomainOf(server, m).value, axis) == v
  }

  /** What the domains of the chain have to do with what the model reaches. */
  lemma DomainReached(server: Server, name: string, d: Domain)
    requires name in server.models
    ensures d in Domains(server, ChainOf(server, name)) <==>
            exists m :: Reaches(server, name, m) && DomainOf(server, m) == Some(d)
  {
    ChainReaches(server, name);
    DomainsHold(server, ChainOf(server, name));
    assert forall m :: m in ChainOf(server, name) <==> Reaches(server, name, m);
  }

  lemma OnlyThen(server: Server, name: string, axis: Axis, v: string)
    requires name in server.models
    requires Values(Domains(server, ChainOf(server, name)), axis) == {v}
    ensures AllOn(server, name, axis, v)
  {
    var ds := Domains(server, ChainOf(server, name));
    assert v in Values(ds, axis);
    var d :| d in ds && On(d, axis) == v;
    DomainReached(server, name, d);
    forall m | Reaches(server, name, m) && DomainOf(server, m).Some?
      ensures On(DomainOf(server, m).value, axis) == v
    {
      DomainReached(server, name, DomainOf(server, m).value);
      assert On(DomainOf(server, m).value, axis) in Values(ds, axis);
    }
  }

  lemma OnlyWhen(server: Server, name: string, axis: Axis, v: string)
    requires name in server.models && AllOn(server, name, axis, v)
    ensures Values(Domains(server, ChainOf(server, name)), axis) == {v}
  {
    var ds := Domains(server, ChainOf(server, name));
    var m :| Reaches(server, name, m) && DomainOf(server, m).Some?;
    DomainReached(server, name, DomainOf(server, m).value);
    assert v in Values(ds, axis);
    forall d | d in ds ensures On(d, axis) == v {
      DomainReached(server, name, d);
    }
  }

  lemma OnlyIff(server: Server, name: string, axis: Axis)
    requires name in server.models
    ensures
      var only := Only(Values(Domains(server, ChainOf(server, name)), axis));
      && (only.Some? <==> exists v :: AllOn(server, name, axis, v))
      && (only.Some? ==> AllOn(server, name, axis, only.value))
  {
    var values := Values(Domains(server, ChainOf(server, name)), axis);
    if Only(values).Some? {
      OnlyThen(server, name, axis, Only(values).value);
    }
    if v :| AllOn(server, name, axis, v) {
      OnlyWhen(server, name, axis, v);
      assert v in values && values == {v};
    }
  }

  /** The model's endpoint is in the catalog. */
  predicate Resolves(server: Server, name: string) {
    name in server.models && server.models[name].endpoint in server.endpoints
  }

  /** The endpoint's address or its credential; where it has none, its own name or its kind stands for it. */
  predicate Behind(ep: Endpoint, axis: Axis, v: string) {
    match axis
    case Host => v == if ep.baseUrl != "" then ep.baseUrl else "(endpoint " + ep.name + ")"
    case Key => v == if ep.keyVar != "" then ep.keyVar else "(kind " + ep.kind + ")"
  }

  /** Some model it reaches resolves, and all that do share `v`. */
  ghost predicate AllBehind(server: Server, name: string, axis: Axis, v: string) {
    && (exists m :: Reaches(server, name, m) && Resolves(server, m))
    && forall m :: Reaches(server, name, m) && Resolves(server, m) ==>
         Behind(server.endpoints[server.models[m].endpoint], axis, v)
  }

  lemma AllOnIff(server: Server, name: string, axis: Axis, v: string)
    ensures AllOn(server, name, axis, v) <==> AllBehind(server, name, axis, v)
  {
    assert forall m :: Resolves(server, m) <==> DomainOf(server, m).Some?;
    if AllOn(server, name, axis, v) {
      var m :| Reaches(server, name, m) && DomainOf(server, m).Some?;
      assert Resolves(server, m);
    }
    if AllBehind(server, name, axis, v) {
      var m :| Reaches(server, name, m) && Resolves(server, m);
      assert DomainOf(server, m).Some?;
    }
  }

  /** Which roles are flagged: those whose model reaches no other, and those all of whose resolvable
      members (there is one at least) sit behind one host or read one credential. */
  lemma FlaggedIff(server: Server, role: string, name: string)
    requires name in server.models
    ensures
      ProblemOf(server, role, name).Some? <==>
        || (forall x :: Reaches(server, name, x) ==> x == name)
        || (exists v :: AllBehind(server, name, Host, v))
        || (exists v :: AllBehind(server, name, Key, v))
    ensures
      ProblemOf(server, role, name) == Some(Alone(role, name)) <==> forall x :: Reaches(server, name, x) ==> x == name
  {
    AloneIff(server, name);
    OnlyIff(server, name, Host);
    OnlyIff(server, name, Key);
    forall v ensures AllOn(server, name, Host, v) <==> AllBehind(server, name, Host, v) {
      AllOnIff(server, name, Host, v);
    }
    forall v ensures AllOn(server, name, Key, v) <==> AllBehind(server, name, Key, v) {
      AllOnIff(server, name, Key, v);
    }
    var domains := Domains(server, ChainOf(server, name));
    if d :| d in domains {
      assert On(d, Host) in Values(domains, Host);
    }
  }

  lemma AloneIff(server: Server, name: string)
    requires name in server.models
    ensures |ChainOf(server, name)| < 2 <==> forall x :: Reaches(server, name, x) ==> x == name
  {
    var chain := ChainOf(server, name);
    ChainReaches(server, name);
    if |chain| < 2 {
      forall x | Reaches(server, name, x) ensures x == name {
        assert x in chain;
      }
    } else {
      assert chain[1] in chain && chain[0] != chain[1];
    }
  }

  /** What the report of a shared domain names: the host, the credential, or both, of every member, each
      when there is one. */
  lemma SharedNames(server: Server, role: string, name: string)
    requires name in server.models && ProblemOf(server, role, name).Some?
    requires ProblemOf(server, role, name).value.Shared?
    ensures
      var p := ProblemOf(server, role, name).value;
      && p.role == role && p.name == name && BreadthFirst(server, name, p.chain)
      && (p.host.Some? ==> AllBehind(server, name, Host, p.host.value))
      && (p.host.None? ==> forall v :: !AllBehind(server, name, Host, v))
      && (p.key.Some? ==> AllBehind(server, name, Key, p.key.value))
      && (p.key.None? ==> forall v :: !AllBehind(server, name, Key, v))
      && (p.host.Some? || p.key.Some?)
  {
    ChainIsBreadthFirst(server, name);
    OnlyIff(server, name, Host);
    OnlyIff(server, name, Key);
    forall v ensures AllOn(server, name, Host, v) <==> AllBehind(server, name, Host, v) {
      AllOnIff(server, name, Host, v);
    }
    forall v ensures AllOn(server, name, Key, v) <==> AllBehind(server, name, Key, v) {
      AllOnIff(server, name, Key, v);
    }
  }

  /** The report is one line for each flagged role that is in the catalog, in the order of the roles. */
  lemma {:induction false} ProblemsInOrder(server: Server, roles: seq<(string, string)>) returns (which: seq<nat>)
    ensures |which| == |Problems(server, roles)|
    ensures forall k :: 0 <= k < |which| ==>
              which[k] < |roles| && roles[which[k]].1 in server.models
              && Some(Problems(server, roles)[k]) == ProblemOf(server, roles[which[k]].0, roles[which[k]].1)
    ensures forall i, k :: 0 <= i < k < |which| ==> which[i] < which[k]
    ensures forall i :: 0 <= i < |roles| && ProblemOf(server, roles[i].0, roles[i].1).Some? ==> i in which
  {
    which := [];
    if roles != [] {
      var n := |roles| - 1;
      var most := ProblemsInOrder(server, roles[..n]);
      which := most;
      if ProblemOf(server, roles[n].0, roles[n].1).Some? {
        which := most + [n];
        assert which[|most|] == n;
      }
      assert forall i :: i in most ==> i in which;
    }
  }
}
