/** The goroutines of DiscoverInventory (internal/services/discovery.go:30-55): every interleaving of them
    leaves what some order of arrival of the same answers leaves. */
module Listing {
  import opened Models
  import opened Ordering
  import opened Discovery

  /** One goroutine: listing, about to deliver what it got, or done. */
  datatype Lister = Listing | Delivering | Delivered

  /** What one successful listing sends. */
  datatype ClusterApps = ClusterApps(cluster: string, apps: seq<Application>)

  /** `arrived` is the order in which the goroutines have delivered. */
  datatype State = State(
    listers: seq<Lister>,
    results: seq<ClusterApps>,
    errors: map<string, Err>,
    arrived: seq<Arrival>)

  datatype Label = Answer(i: nat) | Deliver(i: nat)

  function Initial(answers: seq<Arrival>): State {
    State(seq(|answers|, _ => Listing), [], map[], [])
  }

  predicate Enabled(answers: seq<Arrival>, s: State, l: Label) {
    l.i < |answers| && l.i < |s.listers|
    && match l
       case Answer(i) => s.listers[i] == Listing
       case Deliver(i) => s.listers[i] == Delivering && (answers[i].answer.Apps? ==> |s.results| < |answers|)
  }

  /** A goroutine whose call failed records the error under the lock; the others send into the channel, which
      has one slot per cluster. No goroutine returns an error, so none cancels another. */
  function Apply(answers: seq<Arrival>, s: State, l: Label): State
    requires Enabled(answers, s, l)
  {
    match l
    case Answer(i) => s.(listers := s.listers[i := Delivering])
    case Deliver(i) =>
      var a := answers[i];
      var t := s.(listers := s.listers[i := Delivered], arrived := s.arrived + [a]);
      match a.answer
      case Apps(apps) => t.(results := s.results + [ClusterApps(a.context, apps)])
      case Unavailable(e) => t.(errors := s.errors[a.context := e])
  }

  predicate Run(answers: seq<Arrival>, s: State, ls: seq<Label>)
    decreases ls
  {
    ls != [] ==> Enabled(answers, s, ls[0]) && Run(answers, Apply(answers, s, ls[0]), ls[1..])
  }

  function End(answers: seq<Arrival>, s: State, ls: seq<Label>): State
    requires Run(answers, s, ls)
    decreases ls
  {
    if ls == [] then s else End(answers, Apply(answers, s, ls[0]), ls[1..])
  }

  /** g.Wait has returned. */
  predicate Final(s: State) {
    forall i :: 0 <= i < |s.listers| ==> s.listers[i] == Delivered
  }

  /** The successful listings, in order. */
  function Sent(arrived: seq<Arrival>): seq<ClusterApps> {
    if arrived == [] then []
    else
      var a := arrived[|arrived| - 1];
      Sent(arrived[..|arrived| - 1]) + (if a.answer.Apps? then [ClusterApps(a.context, a.answer.apps)] else [])
  }

  /** The answers of the goroutines that have delivered, in the order of the clusters. */
  function DeliveredOf(answers: seq<Arrival>, listers: seq<Lister>): seq<Arrival>
    requires |answers| == |listers|
  {
    if answers == [] then []
    else (if listers[0] == Delivered then [answers[0]] else []) + DeliveredOf(answers[1..], listers[1..])
  }

  ghost predicate Inv(answers: seq<Arrival>, s: State) {
    |s.listers| == |answers| && multiset(s.arrived) == multiset(DeliveredOf(answers, s.listers))
    && s.results == Sent(s.arrived) && AreErrors(s.errors, s.arrived)
  }

  lemma {:induction false} DeliveredUpdate(answers: seq<Arrival>, listers: seq<Lister>, i: nat, to: Lister)
    requires |answers| == |listers| && i < |listers| && listers[i] != Delivered
    ensures multiset(DeliveredOf(answers, listers[i := to]))
         == multiset(DeliveredOf(answers, listers)) + (if to == Delivered then multiset{answers[i]} else multiset{})
  {
    if i > 0 {
      DeliveredUpdate(answers[1..], listers[1..], i - 1, to);
      assert listers[i := to][1..] == listers[1..][i - 1 := to];
    } else {
      assert listers[0 := to][1..] == listers[1..];
    }
  }

  lemma {:induction false} NoneDelivered(answers: seq<Arrival>, listers: seq<Lister>)
    requires |answers| == |listers| && forall i :: 0 <= i < |listers| ==> listers[i] != Delivered
    ensures DeliveredOf(answers, listers) == []
  {
    if answers != [] { NoneDelivered(answers[1..], listers[1..]); }
  }

  lemma {:induction false} AllDelivered(answers: seq<Arrival>, listers: seq<Lister>)
    requires |answers| == |listers| && forall i :: 0 <= i < |listers| ==> listers[i] == Delivered
    ensures DeliveredOf(answers, listers) == answers
  {
    if answers != [] { AllDelivered(answers[1..], listers[1..]); }
  }

  /** A goroutine that has not delivered leaves room for what it sends. */
  lemma {:induction false} DeliveredRoom(answers: seq<Arrival>, listers: seq<Lister>)
    requires |answers| == |listers|
    ensures |DeliveredOf(answers, listers)| <= |answers|
    ensures (exists i :: 0 <= i < |listers| && listers[i] != Delivered) ==> |DeliveredOf(answers, listers)| < |answers|
  {
    if answers != [] { DeliveredRoom(answers[1..], listers[1..]); }
  }

  lemma {:induction false} SentAtMost(arrived: seq<Arrival>)
    ensures |Sent(arrived)| <= |arrived|
  {
    if arrived != [] { SentAtMost(arrived[..|arrived| - 1]); }
  }

  lemma InvInitially(answers: seq<Arrival>)
    ensures Inv(answers, Initial(answers))
  {
    NoneDelivered(answers, Initial(answers).listers);
  }

  lemma InvKept(answers: seq<Arrival>, s: State, l: Label)
    requires Inv(answers, s) && Enabled(answers, s, l)
    ensures Inv(answers, Apply(answers, s, l))
  {
    hide AreErrors, DeliveredOf, Sent;
    match l
    case Answer(i) => DeliveredUpdate(answers, s.listers, i, Delivering);
    case Deliver(i) =>
      DeliveredUpdate(answers, s.listers, i, Delivered);
      SentSnoc(s.arrived, answers[i]);
      ErrorsSnoc(s.errors, s.arrived, answers[i]);
  }

  lemma SentSnoc(done: seq<Arrival>, a: Arrival)
    ensures Sent(done + [a]) == if a.answer.Apps? then Sent(done) + [ClusterApps(a.context, a.answer.apps)] else Sent(done)
  {
    assert (done + [a])[..|done|] == done;
  }

  lemma ErrorsSnoc(errors: map<string, Err>, done: seq<Arrival>, a: Arrival)
    requires AreErrors(errors, done)
    ensures AreErrors(if a.answer.Unavailable? then errors[a.context := a.answer.err] else errors, done + [a])
  {
    hide ErrorOf;
    ErrorSnoc(done, a);
  }

  lemma ErrorSnoc(done: seq<Arrival>, a: Arrival)
    ensures forall c :: ErrorOf(done + [a], c)
                     == if a.context == c && a.answer.Unavailable? then Some(a.answer.err) else ErrorOf(done, c)
  {
    assert (done + [a])[..|done|] == done;
  }

  lemma {:induction false} InvAlong(answers: seq<Arrival>, s: State, ls: seq<Label>)
    requires Inv(answers, s) && Run(answers, s, ls)
    ensures Inv(answers, End(answers, s, ls))
    decreases ls
  {
    hide Inv, Apply, Enabled;
    if ls != [] {
      InvKept(answers, s, ls[0]);
      InvAlong(answers, Apply(answers, s, ls[0]), ls[1..]);
    }
  }

  /** No send finds the channel full: until g.Wait returns, whoever has not delivered can go on. */
  lemma NeverBlocks(answers: seq<Arrival>, ls: seq<Label>, i: nat)
    requires Run(answers, Initial(answers), ls) && i < |answers|
    ensures var s := End(answers, Initial(answers), ls);
            |s.listers| == |answers|
            && (s.listers[i] == Listing ==> Enabled(answers, s, Answer(i)))
            && (s.listers[i] == Delivering ==> Enabled(answers, s, Deliver(i)))
  {
    InvInitially(answers);
    InvAlong(answers, Initial(answers), ls);
    var s := End(answers, Initial(answers), ls);
    DeliveredRoom(answers, s.listers);
    SentAtMost(s.arrived);
    assert |s.arrived| == |multiset(s.arrived)| == |multiset(DeliveredOf(answers, s.listers))|;
  }

  /** When g.Wait returns, whatever the interleaving: the channel and the recorded errors are those of an order
      of arrival of exactly the clusters' answers. */
  lemma EveryOrder(answers: seq<Arrival>, ls: seq<Label>)
    requires Run(answers, Initial(answers), ls) && Final(End(answers, Initial(answers), ls))
    ensures var s := End(answers, Initial(answers), ls);
            multiset(s.arrived) == multiset(answers) && s.results == Sent(s.arrived) && AreErrors(s.errors, s.arrived)
  {
    InvInitially(answers);
    InvAlong(answers, Initial(answers), ls);
    AllDelivered(answers, End(answers, Initial(answers), ls).listers);
  }

  /** Failed contexts send nothing, so merging what was sent is merging the arrivals. */
  lemma {:induction false} MergedSent(arrived: seq<Arrival>, k: AppKey, c: string)
    ensures Merged(arrived, k, c) == MergedResults(Sent(arrived), k, c)
    decreases |arrived|
  {
    hide LastListed;
    if arrived != [] {
      var before := arrived[..|arrived| - 1];
      var a := arrived[|arrived| - 1];
      MergedSent(before, k, c);
      if a.answer.Apps? {
        assert Sent(arrived)[..|Sent(arrived)| - 1] == Sent(before);
      } else {
        assert Sent(arrived) == Sent(before);
      }
    }
  }

  /** What the results in the channel say about an application in a cluster; a later one wins. */
  function MergedResults(results: seq<ClusterApps>, k: AppKey, c: string): Option<Application> {
    if results == [] then None
    else
      var r := results[|results| - 1];
      if r.cluster == c && LastListed(r.apps, k).Some? then LastListed(r.apps, k)
      else MergedResults(results[..|results| - 1], k, c)
  }

  /** So with distinct context names every interleaving yields the same inventory and the same errors. */
  lemma Deterministic(answers: seq<Arrival>, ls: seq<Label>, other: seq<Label>, x: Inventory, y: Inventory)
    requires DistinctContexts(answers)
    requires Run(answers, Initial(answers), ls) && Final(End(answers, Initial(answers), ls))
    requires Run(answers, Initial(answers), other) && Final(End(answers, Initial(answers), other))
    requires NoEmptyEntry(x) && forall k, c :: Entry(x, k, c) == MergedResults(End(answers, Initial(answers), ls).results, k, c)
    requires NoEmptyEntry(y) && forall k, c :: Entry(y, k, c) == MergedResults(End(answers, Initial(answers), other).results, k, c)
    ensures x == y && End(answers, Initial(answers), ls).errors == End(answers, Initial(answers), other).errors
  {
    hide Merged, MergedResults, Entry, ErrorOf, DistinctContexts, Final, Run, Sent, Compatible, ErrorsAgree;
    EveryOrder(answers, ls);
    EveryOrder(answers, other);
    var a, b := End(answers, Initial(answers), ls).arrived, End(answers, Initial(answers), other).arrived;
    DistinctContextsAreCompatible(answers);
    DistinctContextsErrorsAgree(answers);
    forall k, c ensures Entry(x, k, c) == Entry(y, k, c) {
      MergedSent(a, k, c);
      MergedSent(b, k, c);
      MergedAgrees(answers, a, k, c);
      MergedAgrees(answers, b, k, c);
    }
    SameEntries(x, y);
    ErrorsOfBoth(answers, a, b, End(answers, Initial(answers), ls).errors, End(answers, Initial(answers), other).errors);
  }

  lemma ErrorsOfBoth(answers: seq<Arrival>, a: seq<Arrival>, b: seq<Arrival>, x: map<string, Err>, y: map<string, Err>)
    requires multiset(a) == multiset(answers) && multiset(b) == multiset(answers) && ErrorsAgree(answers)
    requires AreErrors(x, a) && AreErrors(y, b)
    ensures x == y
  {
    hide ErrorOf, ErrorsAgree, AreErrors;
    var z := ErrorsExist(answers);
    SameErrorMaps(answers, a, z, x);
    SameErrorMaps(answers, b, z, y);
  }
}
