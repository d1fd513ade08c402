/** Cross-project aggregation of evolution observations into candidates: a fold over the
    observations in time order, and what it means. */
module CandidateAggregation {
  import opened RunTypes
  import opened Sorting

  datatype EventType = CapabilityGapResolved | HarnessDefectObserved | CapabilityGap | OtherEvent

  datatype Recoverability = HarnessObservation | CapabilityGapRecoverability | OtherRecoverability

  /** The fields the aggregation reads. `signature` is None when the failure has none. */
  datatype Observation = Observation(
    observedAt: nat, sourceEventSeq: nat, observationId: nat,
    version: nat, manifest: nat, signature: Option<nat>,
    project: nat, eventType: EventType, recoverability: Recoverability,
    profile: nat, step: nat, checkName: nat, category: nat, capability: nat)

  function TimeKey(o: Observation): SortKey {
    (o.observedAt, o.sourceEventSeq, o.observationId)
  }

  /** Harness version, manifest digest and failure signature. */
  type GapKey = SortKey

  predicate HasKey(o: Observation, k: GapKey) {
    o.signature.Some? && k == (o.version, o.manifest, o.signature.value)
  }

  function KeyOf(o: Observation): GapKey
    requires o.signature.Some?
  {
    (o.version, o.manifest, o.signature.value)
  }

  predicate Resolves(o: Observation) {
    o.eventType == CapabilityGapResolved
  }

  predicate Qualifies(o: Observation) {
    || (o.eventType == HarnessDefectObserved && o.recoverability == HarnessObservation)
    || (o.eventType == CapabilityGap && o.recoverability == CapabilityGapRecoverability)
  }

  // ----- the fold

  /** An entry of the insertion-ordered dictionary `by_project`. */
  datatype Group = Group(project: nat, items: seq<Observation>)

  /** `by_project.pop(project, None)` */
  function Pop(groups: seq<Group>, project: nat): seq<Group> {
    if groups == [] then []
    else if groups[0].project == project then groups[1..]
    else [groups[0]] + Pop(groups[1..], project)
  }

  /** `by_project.setdefault(project, []).append(item)` */
  function Push(groups: seq<Group>, o: Observation): seq<Group> {
    if groups == [] then [Group(o.project, [o])]
    else if groups[0].project == o.project then [groups[0].(items := groups[0].items + [o])] + groups[1..]
    else [groups[0]] + Push(groups[1..], o)
  }

  /** What one observation with the key does to the groups of that key. */
  function Absorb(groups: seq<Group>, o: Observation): seq<Group> {
    if Resolves(o) then Pop(groups, o.project) else if Qualifies(o) then Push(groups, o) else groups
  }

  /** The insertion-ordered dictionary `active`. */
  datatype Active = Active(order: seq<GapKey>, groups: map<GapKey, seq<Group>>)

  function Step(a: Active, o: Observation): Active {
    if o.signature.None? then a
    else
      var k := KeyOf(o);
      var before := if k in a.groups then a.groups[k] else [];
      Active(if k in a.groups then a.order else a.order + [k], a.groups[k := Absorb(before, o)])
  }

  function Fold(obs: seq<Observation>): Active {
    if obs == [] then Active([], map[]) else Step(Fold(obs[..|obs| - 1]), obs[|obs| - 1])
  }

  function GroupsFor(obs: seq<Observation>, k: GapKey): seq<Group> {
    if k in Fold(obs).groups then Fold(obs).groups[k] else []
  }

  function Flatten(groups: seq<Group>): seq<Observation> {
    if groups == [] then [] else groups[0].items + Flatten(groups[1..])
  }

  datatype Candidate = Candidate(
    key: GapKey, representative: Observation, evidence: set<Observation>,
    occurrences: nat, projects: nat, eligible: bool)

  function Promote(k: GapKey, groups: seq<Group>, minimum: nat): Option<Candidate> {
    var relevant := Flatten(groups);
    if relevant == [] then None
    else Some(Candidate(k, relevant[|relevant| - 1], set o | o in relevant, |relevant|, |groups|, |groups| >= minimum))
  }

  function PromoteAll(keys: seq<GapKey>, groups: map<GapKey, seq<Group>>, minimum: nat): seq<Candidate> {
    if keys == [] then []
    else
      var k := keys[|keys| - 1];
      var c := Promote(k, if k in groups then groups[k] else [], minimum);
      PromoteAll(keys[..|keys| - 1], groups, minimum) + if c.Some? then [c.value] else []
  }

  const IDENTITY: GapKey -> SortKey := k => k

  /** `aggregate_candidates`; None stands for the ValueError on a minimum below two. */
  function Aggregate(observations: seq<Observation>, minimum: nat): Option<seq<Candidate>> {
    if minimum < 2 then None
    else
      var active := Fold(Sorted(observations, TimeKey));
      Some(PromoteAll(Sorted(active.order, IDENTITY), active.groups, minimum))
  }

  /** The two loops of the source. */
  method AggregateCandidates(observations: seq<Observation>, minimum: nat) returns (result: Option<seq<Candidate>>)
    ensures result == Aggregate(observations, minimum)
  {
    hide Absorb, Promote, Sorted;
    if minimum < 2 { return None; }
    var ordered := Sorted(observations, TimeKey);
    var order: seq<GapKey>, groups: map<GapKey, seq<Group>> := [], map[];
    for n := 0 to |ordered|
      invariant Active(order, groups) == Fold(ordered[..n])
    {
      assert ordered[..n + 1][..n] == ordered[..n];
      var item := ordered[n];
      if item.signature.None? { continue; }
      var key := KeyOf(item);
      if key !in groups {
        order := order + [key];
        groups := groups[key := []];
      }
      ghost var before := groups[key];
      groups := groups[key := Absorb(groups[key], item)];
      assert groups == Fold(ordered[..n]).groups[key := Absorb(before, item)];
    }
    assert ordered[..|ordered|] == ordered;
    var keys := Sorted(order, IDENTITY);
    var candidates: seq<Candidate> := [];
    for n := 0 to |keys|
      invariant candidates == PromoteAll(keys[..n], groups, minimum)
    {
      assert keys[..n + 1][..n] == keys[..n];
      var candidate := Promote(keys[n], if keys[n] in groups then groups[keys[n]] else [], minimum);
      if candidate.Some? { candidates := candidates + [candidate.value]; }
    }
    assert keys[..|keys|] == keys;
    return Some(candidates);
  }

  // ----- what it means

  /** A resolution of the same gap in the same project after `o`. */
  predicate ResolvedAfter(all: set<Observation>, o: Observation, k: GapKey) {
    exists r :: r in all && HasKey(r, k) && r.project == o.project && Resolves(r) && Less(TimeKey(o), TimeKey(r))
  }

  /** The qualifying observations of a gap after their project's last resolution. */
  function Unresolved(all: set<Observation>, k: GapKey): set<Observation> {
    set o | o in all && HasKey(o, k) && Qualifies(o) && !ResolvedAfter(all, o, k)
  }

  function ToSet(obs: seq<Observation>): set<Observation> {
    set o | o in obs
  }

  // ----- the groups of one key

  function Projects(groups: seq<Group>): set<nat> {
    if groups == [] then {} else {groups[0].project} + Projects(groups[1..])
  }

  /** `by_project.get(project, [])` */
  function Items(groups: seq<Group>, project: nat): seq<Observation> {
    if groups == [] then []
    else if groups[0].project == project then groups[0].items
    else Items(groups[1..], project)
  }

  /** One non-empty group per project. */
  predicate WellGrouped(groups: seq<Group>) {
    groups == [] ||
    (&& groups[0].items != []
     && (forall i :: 0 <= i < |groups[0].items| ==> groups[0].items[i].project == groups[0].project)
     && groups[0].project !in Projects(groups[1..])
     && WellGrouped(groups[1..]))
  }

  lemma {:induction false} ItemsOfProject(groups: seq<Group>, p: nat)
    requires WellGrouped(groups)
    ensures p in Projects(groups) <==> Items(groups, p) != []
    ensures forall i :: 0 <= i < |Items(groups, p)| ==> Items(groups, p)[i].project == p
    ensures |Projects(groups)| == |groups|
  {
    if groups == [] {
    } else {
      ItemsOfProject(groups[1..], p);
    }
  }

  lemma {:induction false} PushMeans(groups: seq<Group>, o: Observation, p: nat)
    requires WellGrouped(groups)
    ensures WellGrouped(Push(groups, o)) && Projects(Push(groups, o)) == Projects(groups) + {o.project}
    ensures Items(Push(groups, o), p) == if p == o.project then Items(groups, p) + [o] else Items(groups, p)
  {
    if groups == [] {
      assert Push(groups, o)[1..] == [];
    } else {
      var pushed := Push(groups, o);
      if groups[0].project == o.project {
        assert pushed[1..] == groups[1..];
      } else {
        PushMeans(groups[1..], o, p);
        assert pushed[1..] == Push(groups[1..], o);
      }
    }
  }

  lemma {:induction false} PopMeans(groups: seq<Group>, project: nat, p: nat)
    requires WellGrouped(groups)
    ensures WellGrouped(Pop(groups, project)) && Projects(Pop(groups, project)) == Projects(groups) - {project}
    ensures Items(Pop(groups, project), p) == if p == project then [] else Items(groups, p)
  {
    if groups == [] {
    } else {
      var popped := Pop(groups, project);
      if groups[0].project == project {
        ItemsOfProject(groups[1..], p);
      } else {
        PopMeans(groups[1..], project, p);
        assert popped[1..] == Pop(groups[1..], project);
      }
    }
  }

  /** The unresolved observations of one project, as the fold leaves them. */
  function Wanted(obs: seq<Observation>, k: GapKey, p: nat): seq<Observation> {
    if obs == [] then []
    else
      var o, before := obs[|obs| - 1], Wanted(obs[..|obs| - 1], k, p);
      if !HasKey(o, k) || o.project != p then before
      else if Resolves(o) then []
      else if Qualifies(o) then before + [o]
      else before
  }

  lemma {:induction false} FoldMeans(obs: seq<Observation>, k: GapKey, p: nat)
    ensures WellGrouped(GroupsFor(obs, k))
    ensures Items(GroupsFor(obs, k), p) == Wanted(obs, k, p)
  {
    hide Projects, Qualifies, Resolves;
    if obs == [] {
    } else {
      var front, o := obs[..|obs| - 1], obs[|obs| - 1];
      FoldMeans(front, k, p);
      PushMeans(GroupsFor(front, k), o, p);
      PopMeans(GroupsFor(front, k), o.project, p);
    }
  }

  // ----- which observations those are

  predicate NoRepeats(s: seq<Observation>) {
    forall i, j :: 0 <= i < j < |s| ==> s[i] != s[j]
  }

  /** `x` comes after everything in `all`. */
  lemma LaterObservation(all: set<Observation>, x: Observation, o: Observation, k: GapKey)
    requires forall y :: y in all ==> Less(TimeKey(y), TimeKey(x))
    ensures o in all ==> (ResolvedAfter(all + {x}, o, k)
                          <==> ResolvedAfter(all, o, k) || (Resolves(x) && HasKey(x, k) && x.project == o.project))
    ensures !ResolvedAfter(all + {x}, x, k)
  {
    hide HasKey, Resolves;
    if o in all && Resolves(x) && HasKey(x, k) && x.project == o.project {
      assert x in all + {x};
    }
    forall r | r in all + {x} ensures !Less(TimeKey(x), TimeKey(r)) {
      LessOrder(TimeKey(x), TimeKey(r), TimeKey(x));
    }
  }

  lemma {:induction false} WantedMeans(obs: seq<Observation>, k: GapKey, p: nat)
    requires Ascending(obs, TimeKey)
    ensures forall o :: o in Wanted(obs, k, p) <==> o in Unresolved(ToSet(obs), k) && o.project == p
    ensures NoRepeats(Wanted(obs, k, p))
  {
    if obs == [] {
    } else {
      hide Less, Unresolved, Wanted, NoRepeats, Ascending, TimeKey;
      var front, x := obs[..|obs| - 1], obs[|obs| - 1];
      WantedMeans(front, k, p);
      assert obs == front + [x];
      assert ToSet(obs) == ToSet(front) + {x};
      forall y | y in ToSet(front) ensures Less(TimeKey(y), TimeKey(x)) {
        var i :| 0 <= i < |front| && front[i] == y;
        assert obs[i] == y;
      }
      WantedStep(front, x, k, p);
    }
  }

  lemma WantedStep(front: seq<Observation>, x: Observation, k: GapKey, p: nat)
    requires forall y :: y in ToSet(front) ==> Less(TimeKey(y), TimeKey(x))
    requires forall o :: o in Wanted(front, k, p) <==> o in Unresolved(ToSet(front), k) && o.project == p
    requires NoRepeats(Wanted(front, k, p))
    ensures forall o :: o in Wanted(front + [x], k, p) <==> o in Unresolved(ToSet(front) + {x}, k) && o.project == p
    ensures NoRepeats(Wanted(front + [x], k, p))
  {
    hide HasKey, Resolves, Qualifies, ResolvedAfter, Less;
    assert (front + [x])[..|front|] == front;
    var all, before := ToSet(front), Wanted(front, k, p);
    assert x !in all by { LessOrder(TimeKey(x), TimeKey(x), TimeKey(x)); }
    forall o ensures o in Wanted(front + [x], k, p) <==> o in Unresolved(all + {x}, k) && o.project == p {
      LaterObservation(all, x, o, k);
      assert Resolves(x) ==> !Qualifies(x) by { NotBoth(x); }
    }
    assert forall i :: 0 <= i < |before| ==> before[i] in before;
  }

  lemma NotBoth(o: Observation)
    ensures Resolves(o) ==> !Qualifies(o)
  {
  }

  // ----- counting them

  lemma {:induction false} SizeOfSeq(s: seq<Observation>)
    requires NoRepeats(s)
    ensures |ToSet(s)| == |s|
  {
    if s == [] {
    } else {
      var front, x := s[..|s| - 1], s[|s| - 1];
      SizeOfSeq(front);
      assert s == front + [x];
      assert ToSet(s) == ToSet(front) + {x};
    }
  }

  lemma {:induction false} FlattenMeans(groups: seq<Group>)
    requires WellGrouped(groups) && forall p :: NoRepeats(Items(groups, p))
    ensures forall o :: o in Flatten(groups) <==> o in Items(groups, o.project)
    ensures NoRepeats(Flatten(groups))
  {
    if groups == [] {
    } else {
      var rest := groups[1..];
      forall p ensures NoRepeats(Items(rest, p)) {
        ItemsOfProject(rest, p);
        if p != groups[0].project { assert Items(rest, p) == Items(groups, p); }
      }
      FlattenMeans(rest);
      assert NoRepeats(Items(groups, groups[0].project));
      forall o ensures o in Flatten(groups) <==> o in Items(groups, o.project) {
        ItemsOfProject(rest, o.project);
      }
      Disjoint(groups);
    }
  }

  lemma Disjoint(groups: seq<Group>)
    requires groups != [] && WellGrouped(groups)
    requires forall o :: o in Flatten(groups[1..]) <==> o in Items(groups[1..], o.project)
    requires NoRepeats(groups[0].items) && NoRepeats(Flatten(groups[1..]))
    ensures NoRepeats(groups[0].items + Flatten(groups[1..]))
  {
    hide Flatten;
    var a, b := groups[0].items, Flatten(groups[1..]);
    ItemsOfProject(groups[1..], groups[0].project);
    forall i, j | 0 <= i < |a| && 0 <= j < |b| ensures a[i] != b[j] {
      assert b[j] in b;
    }
  }

  // ----- the order they are kept in

  /** Groups are in the order of their first items, items in time order. */
  ghost predicate Chronological(groups: seq<Group>) {
    && (forall i :: 0 <= i < |groups| ==> groups[i].items != [] && Ascending(groups[i].items, TimeKey))
    && (forall i, j :: 0 <= i < j < |groups| ==> Less(TimeKey(groups[i].items[0]), TimeKey(groups[j].items[0])))
  }

  predicate HasItem(groups: seq<Group>, o: Observation) {
    exists i :: 0 <= i < |groups| && o in groups[i].items
  }

  lemma {:induction false} FlattenMembers(groups: seq<Group>, o: Observation)
    ensures o in Flatten(groups) <==> HasItem(groups, o)
  {
    if groups == [] {
    } else {
      FlattenMembers(groups[1..], o);
      assert forall i :: 1 <= i < |groups| ==> groups[i] == groups[1..][i - 1];
      if HasItem(groups[1..], o) {
        var i :| 0 <= i < |groups[1..]| && o in groups[1..][i].items;
        assert o in groups[i + 1].items;
      }
    }
  }

  lemma {:induction false} PopShape(groups: seq<Group>, project: nat) returns (n: nat)
    ensures n <= |groups|
    ensures Pop(groups, project) == if n < |groups| then groups[..n] + groups[n + 1..] else groups
  {
    if groups == [] || groups[0].project == project {
      n := 0;
    } else {
      n := PopShape(groups[1..], project);
      n := n + 1;
    }
  }

  lemma {:induction false} PushShape(groups: seq<Group>, x: Observation) returns (n: nat)
    ensures n <= |groups|
    ensures Push(groups, x) == if n < |groups| then groups[n := groups[n].(items := groups[n].items + [x])]
                               else groups + [Group(x.project, [x])]
  {
    if groups == [] || groups[0].project == x.project {
      n := 0;
    } else {
      var m := PushShape(groups[1..], x);
      n := m + 1;
      assert groups == [groups[0]] + groups[1..];
      assert m < |groups[1..]| ==> groups[1..][m] == groups[n];
    }
  }

  lemma PopKeepsOrder(groups: seq<Group>, project: nat)
    requires Chronological(groups)
    ensures Chronological(Pop(groups, project))
    ensures forall o :: HasItem(Pop(groups, project), o) ==> HasItem(groups, o)
  {
    hide Less, TimeKey, Pop, Ascending;
    var n := PopShape(groups, project);
    var popped := Pop(groups, project);
    forall i | 0 <= i < |popped| ensures popped[i] == groups[if i < n then i else i + 1] { }
  }

  lemma PushKeepsOrder(groups: seq<Group>, x: Observation)
    requires Chronological(groups) && forall o :: HasItem(groups, o) ==> Less(TimeKey(o), TimeKey(x))
    ensures Chronological(Push(groups, x))
    ensures forall o :: HasItem(Push(groups, x), o) ==> HasItem(groups, o) || o == x
  {
    hide Less, TimeKey, Push;
    var n := PushShape(groups, x);
    forall i, j | 0 <= i < |groups| && 0 <= j < |groups[i].items|
      ensures Less(TimeKey(groups[i].items[j]), TimeKey(x))
    {
      assert HasItem(groups, groups[i].items[j]);
    }
  }

  lemma AbsorbKeepsOrder(groups: seq<Group>, x: Observation)
    requires Chronological(groups) && forall o :: HasItem(groups, o) ==> Less(TimeKey(o), TimeKey(x))
    ensures Chronological(Absorb(groups, x))
    ensures forall o :: HasItem(Absorb(groups, x), o) ==> HasItem(groups, o) || o == x
  {
    hide Less, TimeKey, Push, Pop, Qualifies, Resolves, Chronological, HasItem;
    PushKeepsOrder(groups, x);
    PopKeepsOrder(groups, x.project);
  }

  lemma {:induction false} FoldKeepsOrder(obs: seq<Observation>, k: GapKey)
    requires Ascending(obs, TimeKey)
    ensures Chronological(GroupsFor(obs, k))
    ensures forall o :: HasItem(GroupsFor(obs, k), o) ==> o in obs
  {
    if obs == [] {
    } else {
      hide Less, TimeKey, Chronological, Absorb, HasItem;
      var front, x := obs[..|obs| - 1], obs[|obs| - 1];
      FoldKeepsOrder(front, k);
      forall o | HasItem(GroupsFor(front, k), o) ensures Less(TimeKey(o), TimeKey(x)) {
        var i :| 0 <= i < |front| && front[i] == o;
        assert obs[i] == o;
      }
      AbsorbKeepsOrder(GroupsFor(front, k), x);
    }
  }

  lemma {:induction false} FlattenEnds(groups: seq<Group>)
    requires groups != [] && forall i :: 0 <= i < |groups| ==> groups[i].items != []
    ensures var last := groups[|groups| - 1].items;
            Flatten(groups) != [] && Flatten(groups)[|Flatten(groups)| - 1] == last[|last| - 1]
  {
    if |groups| == 1 {
    } else {
      FlattenEnds(groups[1..]);
    }
  }

  lemma {:induction false} OneProjectEach(groups: seq<Group>)
    requires WellGrouped(groups)
    ensures forall i :: 0 <= i < |groups| ==>
              && groups[i].project in Projects(groups)
              && forall o :: o in groups[i].items ==> o.project == groups[i].project
    ensures forall i, j :: 0 <= i < j < |groups| ==> groups[i].project != groups[j].project
  {
    if groups == [] {
    } else {
      OneProjectEach(groups[1..]);
      assert forall i :: 1 <= i < |groups| ==> groups[i] == groups[1..][i - 1];
    }
  }

  /** The last item of the flattened groups. */
  lemma LastRepresents(groups: seq<Group>)
    requires WellGrouped(groups) && Chronological(groups) && Flatten(groups) != []
    ensures Represents(Flatten(groups)[|Flatten(groups)| - 1], ToSet(Flatten(groups)))
  {
    hide Less, TimeKey, Flatten, WellGrouped, Projects, BeganAfter;
    var relevant := Flatten(groups);
    OneProjectEach(groups);
    forall o ensures o in relevant <==> HasItem(groups, o) { FlattenMembers(groups, o); }
    assert groups != [] by { assert HasItem(groups, relevant[0]); }
    FlattenEnds(groups);
    var last := groups[|groups| - 1];
    assert HasItem(groups, last.items[|last.items| - 1]);
    forall o | o in ToSet(relevant) && o.project != last.project
      ensures BeganAfter(ToSet(relevant), last.project, o.project)
    {
      LastBeganAfter(groups, o);
    }
  }

  lemma LastBeganAfter(groups: seq<Group>, o: Observation)
    requires WellGrouped(groups) && Chronological(groups)
    requires HasItem(groups, o) && o.project != groups[|groups| - 1].project
    ensures BeganAfter(ToSet(Flatten(groups)), groups[|groups| - 1].project, o.project)
  {
    hide Less, TimeKey, Flatten, WellGrouped, Projects;
    OneProjectEach(groups);
    var i :| 0 <= i < |groups| && o in groups[i].items;
    var first, last := groups[i].items[0], groups[|groups| - 1];
    FlattenMembers(groups, first);
    forall f | f in ToSet(Flatten(groups)) && f.project == last.project ensures Less(TimeKey(first), TimeKey(f)) {
      FlattenMembers(groups, f);
      LessOrder(TimeKey(first), TimeKey(last.items[0]), TimeKey(f));
    }
  }

  function ProjectsOf(obs: set<Observation>): set<nat> {
    set o | o in obs :: o.project
  }

  /** Every unresolved observation of `p` is later than some unresolved observation of `q`. */
  ghost predicate BeganAfter(alive: set<Observation>, p: nat, q: nat) {
    exists o :: o in alive && o.project == q
      && forall f :: f in alive && f.project == p ==> Less(TimeKey(o), TimeKey(f))
  }

  /** The newest observation of the project whose unresolved streak began last; it need not be
      the newest observation of all. */
  ghost predicate Represents(rep: Observation, alive: set<Observation>) {
    && rep in alive
    && (forall o :: o in alive && o.project == rep.project ==> o == rep || Less(TimeKey(o), TimeKey(rep)))
    && (forall o :: o in alive && o.project != rep.project ==> BeganAfter(alive, rep.project, o.project))
  }

  /** What a candidate of gap `k` must say. */
  ghost predicate Describes(c: Candidate, all: set<Observation>, k: GapKey, minimum: nat) {
    && c.key == k
    && c.evidence == Unresolved(all, k)
    && c.occurrences == |Unresolved(all, k)|
    && c.projects == |ProjectsOf(Unresolved(all, k))|
    && (c.eligible <==> |ProjectsOf(Unresolved(all, k))| >= minimum)
    && Represents(c.representative, Unresolved(all, k))
  }

  lemma GroupsMean(obs: seq<Observation>, k: GapKey)
    requires Ascending(obs, TimeKey)
    ensures var groups, alive := GroupsFor(obs, k), Unresolved(ToSet(obs), k);
            && WellGrouped(groups)
            && ToSet(Flatten(groups)) == alive && |Flatten(groups)| == |alive|
            && Projects(groups) == ProjectsOf(alive) && |groups| == |ProjectsOf(alive)|
  {
    hide Ascending, Unresolved;
    var groups, alive := GroupsFor(obs, k), Unresolved(ToSet(obs), k);
    FoldMeans(obs, k, 0);
    ItemsOfProject(groups, 0);
    forall p ensures NoRepeats(Items(groups, p)) {
      FoldMeans(obs, k, p);
      WantedMeans(obs, k, p);
    }
    FlattenMeans(groups);
    SizeOfSeq(Flatten(groups));
    forall o ensures o in ToSet(Flatten(groups)) <==> o in alive {
      FoldMeans(obs, k, o.project);
      WantedMeans(obs, k, o.project);
    }
    forall p ensures p in Projects(groups) <==> p in ProjectsOf(alive) {
      FoldMeans(obs, k, p);
      WantedMeans(obs, k, p);
      ItemsOfProject(groups, p);
      if Items(groups, p) != [] {
        assert Items(groups, p)[0] in Wanted(obs, k, p);
      }
      if p in ProjectsOf(alive) {
        var o :| o in alive && o.project == p;
        assert o in Wanted(obs, k, p);
      }
    }
  }

  lemma PromoteMeans(obs: seq<Observation>, k: GapKey, minimum: nat)
    requires Ascending(obs, TimeKey)
    ensures var c := Promote(k, GroupsFor(obs, k), minimum);
            && (c.Some? <==> Unresolved(ToSet(obs), k) != {})
            && (c.Some? ==> Describes(c.value, ToSet(obs), k, minimum))
  {
    hide Ascending, Unresolved, Flatten, GroupsFor, WellGrouped, Represents, Chronological;
    GroupsMean(obs, k);
    FoldKeepsOrder(obs, k);
    var relevant := Flatten(GroupsFor(obs, k));
    if relevant != [] { LastRepresents(GroupsFor(obs, k)); }
  }

  ghost predicate AllDescribe(cs: seq<Candidate>, keys: seq<GapKey>, all: set<Observation>, minimum: nat) {
    forall i :: 0 <= i < |cs| ==> cs[i].key in keys && Describes(cs[i], all, cs[i].key, minimum)
  }

  ghost predicate Listed(cs: seq<Candidate>, k: GapKey) {
    exists i :: 0 <= i < |cs| && cs[i].key == k
  }

  ghost predicate Increasing(cs: seq<Candidate>) {
    forall i, j :: 0 <= i < j < |cs| ==> Less(cs[i].key, cs[j].key)
  }

  lemma LastIsGreatest(keys: seq<GapKey>, x: GapKey)
    requires keys != [] && Ascending(keys, IDENTITY) && x in keys[..|keys| - 1]
    ensures Less(x, keys[|keys| - 1])
  {
    hide Less;
    var i :| 0 <= i < |keys| - 1 && keys[i] == x;
    assert Less(IDENTITY(keys[i]), IDENTITY(keys[|keys| - 1]));
  }

  /** `cs` holds the candidates of the gaps in `keys`, in that order. */
  ghost predicate Promoted(cs: seq<Candidate>, keys: seq<GapKey>, all: set<Observation>, minimum: nat) {
    && AllDescribe(cs, keys, all, minimum)
    && (forall k :: k in keys && Unresolved(all, k) != {} ==> Listed(cs, k))
    && Increasing(cs)
  }

  lemma PromotedMore(cs: seq<Candidate>, keys: seq<GapKey>, k: GapKey, c: Option<Candidate>,
                     all: set<Observation>, minimum: nat)
    requires Promoted(cs, keys, all, minimum)
    requires c.Some? <==> Unresolved(all, k) != {}
    requires c.Some? ==> c.value.key == k && Describes(c.value, all, k, minimum)
    requires forall x :: x in keys ==> Less(x, k)
    ensures Promoted(cs + if c.Some? then [c.value] else [], keys + [k], all, minimum)
  {
    hide Describes, Unresolved, Less, Listed;
    if c.Some? {
      forall x ensures Listed(cs + [c.value], x) <==> Listed(cs, x) || x == k { ListedMore(cs, c.value, x); }
    } else {
      assert cs + [] == cs;
    }
  }

  lemma {:induction false} PromoteAllMeans(keys: seq<GapKey>, obs: seq<Observation>, minimum: nat)
    requires Ascending(obs, TimeKey) && Ascending(keys, IDENTITY)
    ensures Promoted(PromoteAll(keys, Fold(obs).groups, minimum), keys, ToSet(obs), minimum)
  {
    if keys == [] {
    } else {
      hide Promote, Promoted, Describes, Unresolved, Less, Fold, ToSet, TimeKey;
      var front, k := keys[..|keys| - 1], keys[|keys| - 1];
      assert keys == front + [k];
      PromoteAllMeans(front, obs, minimum);
      PromoteMeans(obs, k, minimum);
      var c := Promote(k, GroupsFor(obs, k), minimum);
      if c.Some? { DescribesKey(c.value, ToSet(obs), k, minimum); }
      forall x | x in front ensures Less(x, k) { LastIsGreatest(keys, x); }
      PromotedMore(PromoteAll(front, Fold(obs).groups, minimum), front, k, c, ToSet(obs), minimum);
    }
  }

  lemma ListedMore(before: seq<Candidate>, c: Candidate, x: GapKey)
    ensures Listed(before + [c], x) <==> Listed(before, x) || x == c.key
  {
    var cs := before + [c];
    if Listed(before, x) {
      var i :| 0 <= i < |before| && before[i].key == x;
      assert cs[i].key == x;
    }
    assert cs[|before|] == c;
  }

  lemma DescribesKey(c: Candidate, all: set<Observation>, k: GapKey, minimum: nat)
    requires Describes(c, all, k, minimum)
    ensures c.key == k
  {
  }

  /** `active` lists its keys once each. */
  lemma {:induction false} OrderMeans(obs: seq<Observation>)
    ensures DistinctKeys(Fold(obs).order, IDENTITY)
    ensures forall k :: k in Fold(obs).order <==> k in Fold(obs).groups
    ensures forall k, o :: o in obs && HasKey(o, k) ==> k in Fold(obs).groups
  {
    hide Absorb;
    if obs == [] {
    } else {
      var front, x := obs[..|obs| - 1], obs[|obs| - 1];
      OrderMeans(front);
      var before := Fold(front);
      assert forall i :: 0 <= i < |before.order| ==> before.order[i] in before.order;
      assert obs == front + [x];
      forall k, o | o in obs && HasKey(o, k) ensures k in Fold(obs).groups {
        assert o in front || o == x;
      }
    }
  }

  /** For observations with distinct sort keys: the candidates are sorted by gap, a gap has one
      exactly when it has an unresolved qualifying observation, and its evidence, counts and
      eligibility are those of the unresolved observations. */
  lemma AggregateMeans(observations: seq<Observation>, minimum: nat)
    requires DistinctKeys(observations, TimeKey) && minimum >= 2
    ensures Aggregate(observations, minimum).Some?
    ensures var cs, all := Aggregate(observations, minimum).value, ToSet(observations);
            && (forall i :: 0 <= i < |cs| ==> Describes(cs[i], all, cs[i].key, minimum))
            && (forall k :: Unresolved(all, k) != {} <==> Listed(cs, k))
            && Increasing(cs)
  {
    hide Ascending, DistinctKeys, Describes, Less, Fold, Sorted, PromoteAll, Promote;
    var obs := Sorted(observations, TimeKey);
    SortedAscends(observations, TimeKey);
    assert ToSet(obs) == ToSet(observations) by {
      forall o ensures o in obs <==> o in observations { SameMembers(observations, TimeKey, o); }
    }
    var active, all := Fold(obs), ToSet(observations);
    OrderMeans(obs);
    SortedAscends(active.order, IDENTITY);
    var keys := Sorted(active.order, IDENTITY);
    PromoteAllMeans(keys, obs, minimum);
    var cs := PromoteAll(keys, active.groups, minimum);
    forall k ensures Unresolved(all, k) != {} <==> Listed(cs, k) {
      if Unresolved(all, k) != {} {
        var o :| o in Unresolved(all, k);
        assert o in obs && HasKey(o, k);
        SameMembers(active.order, IDENTITY, k);
      } else {
        forall i | 0 <= i < |cs| ensures cs[i].key != k { DescribedIsUnresolved(cs[i], all, minimum); }
      }
    }
  }

  lemma DescribedIsUnresolved(c: Candidate, all: set<Observation>, minimum: nat)
    requires Describes(c, all, c.key, minimum)
    ensures Unresolved(all, c.key) != {}
  {
  }

  /** The result does not depend on the order in which observations arrive. */
  lemma AggregateForgetsOrder(a: seq<Observation>, b: seq<Observation>, minimum: nat)
    requires multiset(a) == multiset(b) && DistinctKeys(a, TimeKey) && DistinctKeys(b, TimeKey)
    ensures Aggregate(a, minimum) == Aggregate(b, minimum)
  {
    SortForgetsOrder(a, b, TimeKey);
  }

  /** Which observations count, which resolve, and which belong to a gap. */
  lemma RulesAre(o: Observation, k: GapKey)
    ensures var counting := {(HarnessDefectObserved, HarnessObservation),
                             (CapabilityGap, CapabilityGapRecoverability)};
            Qualifies(o) <==> (o.eventType, o.recoverability) in counting
    ensures Resolves(o) <==> o.eventType == CapabilityGapResolved
    ensures HasKey(o, k) <==> o.version == k.0 && o.manifest == k.1 && o.signature == Some(k.2)
  {
  }

  /** Fewer than two projects are refused, whatever the observations. */
  lemma RefusedBelowTwo(observations: seq<Observation>, minimum: nat)
    ensures Aggregate(observations, minimum) == None <==> minimum < 2
  {
    hide Fold, PromoteAll, Sorted;
  }
}
