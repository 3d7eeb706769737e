/** The inventory of all clusters, and what is read off it (internal/services/discovery.go). The clusters
    are listed in parallel; the answers are merged in the arbitrary order in which they arrive. */
module Discovery {
  import opened GoStrings
  import opened Models
  import opened Ordering
  import opened Resources

  datatype Answer = Apps(apps: seq<Application>) | Unavailable(err: Err)

  datatype Arrival = Arrival(context: string, answer: Answer)

  /** The last application of a list with a given key. */
  function LastListed(apps: seq<Application>, k: AppKey): (r: Option<Application>)
    ensures r.Some? ==> r.value in apps && r.value.key == k
    ensures r.None? ==> forall a :: a in apps ==> a.key != k
  {
    if apps == [] then None
    else if apps[|apps| - 1].key == k then Some(apps[|apps| - 1])
    else LastListed(apps[..|apps| - 1], k)
  }

  /** `a` is the last of the list with key `k`. */
  ghost predicate IsLast(apps: seq<Application>, k: AppKey, a: Application) {
    exists i :: 0 <= i < |apps| && apps[i] == a && a.key == k && forall j :: i < j < |apps| ==> apps[j].key != k
  }

  lemma {:induction false} LastListedMeaning(apps: seq<Application>, k: AppKey, a: Application)
    ensures LastListed(apps, k) == Some(a) <==> IsLast(apps, k, a)
  {
    if apps != [] {
      var n := |apps| - 1;
      LastListedMeaning(apps[..n], k, a);
      if apps[n].key != k {
        LastOfPrefix(apps, k, a);
      }
    }
  }

  lemma LastOfPrefix(apps: seq<Application>, k: AppKey, a: Application)
    requires apps != [] && apps[|apps| - 1].key != k
    ensures IsLast(apps, k, a) <==> IsLast(apps[..|apps| - 1], k, a)
  {
    var n := |apps| - 1;
    var before := apps[..n];
    if IsLast(apps, k, a) {
      var i :| 0 <= i < |apps| && apps[i] == a && a.key == k && forall j :: i < j < |apps| ==> apps[j].key != k;
      assert before[i] == a && forall j :: i < j < n ==> before[j] == apps[j];
    }
    if IsLast(before, k, a) {
      var i :| 0 <= i < n && before[i] == a && a.key == k && forall j :: i < j < n ==> before[j].key != k;
      assert apps[i] == a && forall j :: i < j < n ==> before[j] == apps[j];
    }
  }

  /** What one answer says about an application in cluster `c`. */
  function Says(a: Arrival, k: AppKey, c: string): Option<Application> {
    if a.context == c && a.answer.Apps? then LastListed(a.answer.apps, k) else None
  }

  /** What the answers say about an application in a cluster; a later arrival wins. */
  function Merged(arrivals: seq<Arrival>, k: AppKey, c: string): Option<Application> {
    if arrivals == [] then None
    else if Says(arrivals[|arrivals| - 1], k, c).Some? then Says(arrivals[|arrivals| - 1], k, c)
    else Merged(arrivals[..|arrivals| - 1], k, c)
  }

  /** The answers say `x` of an application in a cluster exactly if some answer of that context does and no
      later one lists the application. */
  lemma {:induction false} MergedMeaning(arrivals: seq<Arrival>, k: AppKey, c: string, x: Application)
    ensures Merged(arrivals, k, c) == Some(x) <==>
            exists i :: 0 <= i < |arrivals| && Says(arrivals[i], k, c) == Some(x)
                        && forall j :: i < j < |arrivals| ==> Says(arrivals[j], k, c).None?
    decreases |arrivals|
  {
    hide Says;
    if arrivals != [] {
      var n := |arrivals| - 1;
      var before := arrivals[..n];
      MergedMeaning(before, k, c, x);
      assert forall j :: 0 <= j < n ==> before[j] == arrivals[j];
    }
  }

  /** The last listed application of a name, by a cluster that answered under the context. */
  lemma SaysMeaning(a: Arrival, k: AppKey, c: string, x: Application)
    ensures Says(a, k, c) == Some(x) <==> a.context == c && a.answer.Apps? && IsLast(a.answer.apps, k, x)
  {
    hide LastListed, IsLast;
    if a.answer.Apps? {
      LastListedMeaning(a.answer.apps, k, x);
    }
  }

  function Entry(inv: Inventory, k: AppKey, c: string): Option<Application> {
    if k in inv && c in inv[k] then Some(inv[k][c]) else None
  }

  ghost predicate NoEmptyEntry(inv: Inventory) {
    forall k :: k in inv ==> inv[k] != map[]
  }

  /** `inv` holds exactly what the answers say. */
  ghost predicate IsInventory(inv: Inventory, arrivals: seq<Arrival>) {
    NoEmptyEntry(inv) && forall k, c :: Entry(inv, k, c) == Merged(arrivals, k, c)
  }

  /** The error recorded for a context; a later one overwrites it. */
  function ErrorOf(arrivals: seq<Arrival>, c: string): Option<Err> {
    if arrivals == [] then None
    else if arrivals[|arrivals| - 1].context == c && arrivals[|arrivals| - 1].answer.Unavailable? then
      Some(arrivals[|arrivals| - 1].answer.err)
    else ErrorOf(arrivals[..|arrivals| - 1], c)
  }

  /** The error recorded for a context is that of its last failure. */
  lemma {:induction false} ErrorMeaning(arrivals: seq<Arrival>, c: string, e: Err)
    ensures ErrorOf(arrivals, c) == Some(e) <==>
            exists i :: 0 <= i < |arrivals| && arrivals[i] == Arrival(c, Unavailable(e))
                        && forall j :: i < j < |arrivals| ==> arrivals[j].context != c || arrivals[j].answer.Apps?
    decreases |arrivals|
  {
    if arrivals != [] {
      var n := |arrivals| - 1;
      var before := arrivals[..n];
      ErrorMeaning(before, c, e);
      assert forall j :: 0 <= j < n ==> before[j] == arrivals[j];
    }
  }

  ghost predicate AreErrors(errors: map<string, Err>, arrivals: seq<Arrival>) {
    forall c :: (if c in errors then Some(errors[c]) else None) == ErrorOf(arrivals, c)
  }

  /** The answers with no application in them at all. */
  predicate NothingListed(arrivals: seq<Arrival>) {
    forall i :: 0 <= i < |arrivals| && arrivals[i].answer.Apps? ==> arrivals[i].answer.apps == []
  }

  predicate SomeUnavailable(arrivals: seq<Arrival>) {
    exists i :: 0 <= i < |arrivals| && arrivals[i].answer.Unavailable?
  }

  /** One error per failing context, in order: errors.Join. */
  ghost function Joined(errors: map<string, Err>): (r: seq<(string, Err)>)
    ensures |r| == |errors|
    ensures forall i :: 0 <= i < |r| ==> r[i].0 in errors && r[i].1 == errors[r[i].0]
    ensures forall i, j :: 0 <= i < j < |r| ==> Less(r[i].0, r[j].0)
  {
    LessOrders();
    var keys := SortedSet(errors.Keys, Less);
    SortedSize(keys, errors.Keys);
    InElements(keys);
    seq(|keys|, i requires 0 <= i < |keys| => (keys[i], errors[keys[i]]))
  }

  lemma InElements<T>(s: seq<T>)
    ensures forall i :: 0 <= i < |s| ==> s[i] in Elements(s)
  {
  }

  lemma {:induction false} SortedSize(keys: seq<string>, s: set<string>)
    requires Ascending(keys, Less) && Elements(keys) == s
    ensures |keys| == |s|
  {
    hide Less;
    if keys != [] {
      LessOrders();
      assert keys[0] in s && keys[0] !in keys[1..];
      assert Elements(keys[1..]) == s - {keys[0]} by {
        assert keys == [keys[0]] + keys[1..];
      }
      SortedSize(keys[1..], s - {keys[0]});
    }
  }

  /** DiscoverInventory, after the clusters were listed. */
  method DiscoverInventory(arrivals: seq<Arrival>)
    returns (inv: Inventory, errors: map<string, Err>, err: Option<seq<(string, Err)>>)
    ensures IsInventory(inv, arrivals) && AreErrors(errors, arrivals)
    ensures err.Some? <==> NothingListed(arrivals) && SomeUnavailable(arrivals)
    ensures err.Some? ==> inv == map[] && err.value == Joined(errors)
  {
    errors := RecordErrors(arrivals);
    inv := map[];
    for i := 0 to |arrivals|
      invariant IsInventory(inv, arrivals[..i])
    {
      assert arrivals[..i + 1][..i] == arrivals[..i];
      if arrivals[i].answer.Apps? {
        inv := MergeOne(inv, arrivals[..i], arrivals[i]);
      } else {
        SkipUnavailable(inv, arrivals[..i], arrivals[i]);
      }
      assert arrivals[..i + 1] == arrivals[..i] + [arrivals[i]];
    }
    assert arrivals[..|arrivals|] == arrivals;
    EmptyIff(inv, arrivals);
    ErrorsIff(errors, arrivals);
    err := None;
    if |inv| == 0 && |errors| > 0 {
      var joined := JoinErrors(errors);
      err := Some(joined);
    }
  }

  method RecordErrors(arrivals: seq<Arrival>) returns (errors: map<string, Err>)
    ensures AreErrors(errors, arrivals)
  {
    errors := map[];
    for i := 0 to |arrivals|
      invariant AreErrors(errors, arrivals[..i])
    {
      assert arrivals[..i + 1][..i] == arrivals[..i];
      if arrivals[i].answer.Unavailable? {
        errors := errors[arrivals[i].context := arrivals[i].answer.err];
      }
    }
    assert arrivals[..|arrivals|] == arrivals;
  }

  /** Adds the applications of one cluster. */
  method MergeOne(before: Inventory, done: seq<Arrival>, a: Arrival) returns (inv: Inventory)
    requires IsInventory(before, done) && a.answer.Apps?
    ensures IsInventory(inv, done + [a])
  {
    var apps := a.answer.apps;
    inv := before;
    for j := 0 to |apps|
      invariant NoEmptyEntry(inv)
      invariant forall k, c :: Entry(inv, k, c) == Overlay(LastListed(apps[..j], k), a.context == c, Entry(before, k, c))
    {
      assert apps[..j + 1][..j] == apps[..j];
      var app := apps[j];
      if app.key !in inv {
        inv := inv[app.key := map[]];
      }
      var entry := inv[app.key][a.context := app];
      assert a.context in entry;
      inv := inv[app.key := entry];
    }
    assert apps[..|apps|] == apps;
    MergedLast(done, a);
  }

  /** One more answer overlays the others. */
  lemma MergedLast(done: seq<Arrival>, a: Arrival)
    requires a.answer.Apps?
    ensures forall k, c :: Merged(done + [a], k, c)
                        == Overlay(LastListed(a.answer.apps, k), a.context == c, Merged(done, k, c))
  {
    hide LastListed;
    assert (done + [a])[..|done|] == done;
  }

  function Overlay(newer: Option<Application>, applies: bool, older: Option<Application>): Option<Application> {
    if applies && newer.Some? then newer else older
  }

  lemma SkipUnavailable(inv: Inventory, done: seq<Arrival>, a: Arrival)
    requires IsInventory(inv, done) && a.answer.Unavailable?
    ensures IsInventory(inv, done + [a])
  {
    assert (done + [a])[..|done|] == done;
  }

  lemma {:induction false} MergedSource(arrivals: seq<Arrival>, k: AppKey, c: string)
    ensures Merged(arrivals, k, c).Some? ==>
              exists i :: 0 <= i < |arrivals| && Says(arrivals[i], k, c) == Merged(arrivals, k, c)
    ensures Merged(arrivals, k, c).None? ==> forall i :: 0 <= i < |arrivals| ==> Says(arrivals[i], k, c).None?
  {
    hide Says;
    if arrivals != [] && Says(arrivals[|arrivals| - 1], k, c).None? {
      MergedSource(arrivals[..|arrivals| - 1], k, c);
      assert forall i :: 0 <= i < |arrivals| - 1 ==> arrivals[..|arrivals| - 1][i] == arrivals[i];
    }
  }

  lemma {:induction false} ErrorSource(arrivals: seq<Arrival>, c: string)
    ensures ErrorOf(arrivals, c).Some? ==>
              exists i :: 0 <= i < |arrivals| && arrivals[i] == Arrival(c, Unavailable(ErrorOf(arrivals, c).value))
    ensures ErrorOf(arrivals, c).None? ==>
              forall i :: 0 <= i < |arrivals| ==> arrivals[i].context != c || arrivals[i].answer.Apps?
  {
    if arrivals != [] {
      ErrorSource(arrivals[..|arrivals| - 1], c);
      assert forall i :: 0 <= i < |arrivals| - 1 ==> arrivals[..|arrivals| - 1][i] == arrivals[i];
    }
  }

  lemma EmptyIff(inv: Inventory, arrivals: seq<Arrival>)
    requires IsInventory(inv, arrivals)
    ensures inv == map[] <==> NothingListed(arrivals)
  {
    hide Merged;
    if inv != map[] {
      var k :| k in inv;
      assert inv[k] != map[];
      var c :| c in inv[k];
      MergedSource(arrivals, k, c);
      assert Entry(inv, k, c).Some?;
    } else if !NothingListed(arrivals) {
      var i :| 0 <= i < |arrivals| && arrivals[i].answer.Apps? && arrivals[i].answer.apps != [];
      var k, c := arrivals[i].answer.apps[0].key, arrivals[i].context;
      assert Entry(inv, k, c).None?;
      MergedSource(arrivals, k, c);
      assert false;
    }
  }

  lemma ErrorsIff(errors: map<string, Err>, arrivals: seq<Arrival>)
    requires AreErrors(errors, arrivals)
    ensures errors != map[] <==> SomeUnavailable(arrivals)
  {
    hide ErrorOf;
    if errors != map[] {
      var c :| c in errors;
      ErrorSource(arrivals, c);
    } else if SomeUnavailable(arrivals) {
      var i :| 0 <= i < |arrivals| && arrivals[i].answer.Unavailable?;
      assert arrivals[i].context !in errors;
      ErrorSource(arrivals, arrivals[i].context);
    }
  }

  method JoinErrors(errors: map<string, Err>) returns (b: seq<(string, Err)>)
    ensures b == Joined(errors)
  {
    hide Less;
    LessOrders();
    var names := Listed(errors.Keys);
    var keys := SortKeys(names, Less);
    InElements(keys);
    b := [];
    for i := 0 to |keys|
      invariant |b| == i && forall j :: 0 <= j < i ==> keys[j] in errors && b[j] == (keys[j], errors[keys[j]])
    {
      b := b + [(keys[i], errors[keys[i]])];
    }
  }

  // ---- what the inventory says ----

  /** Every entry was listed, last of its name, by a cluster that answered under that context; a context
      that only failed has no entry. */
  lemma EntriesWereListed(inv: Inventory, arrivals: seq<Arrival>, k: AppKey, c: string)
    requires IsInventory(inv, arrivals) && k in inv && c in inv[k]
    ensures inv[k][c].key == k
    ensures exists i :: 0 <= i < |arrivals| && arrivals[i].context == c && arrivals[i].answer.Apps?
                        && IsLast(arrivals[i].answer.apps, k, inv[k][c])
                        && forall j :: i < j < |arrivals| && arrivals[j].context == c && arrivals[j].answer.Apps? ==>
                             forall a :: a in arrivals[j].answer.apps ==> a.key != k
  {
    hide Merged, IsLast, LastListed;
    var x := inv[k][c];
    assert Entry(inv, k, c) == Some(x);
    MergedMeaning(arrivals, k, c, x);
    var i :| 0 <= i < |arrivals| && Says(arrivals[i], k, c) == Some(x) && forall j :: i < j < |arrivals| ==> Says(arrivals[j], k, c).None?;
    SaysMeaning(arrivals[i], k, c, x);
  }

  /** Two answers under the same context agree on every application that both list. */
  ghost predicate Compatible(arrivals: seq<Arrival>) {
    forall i, j, k, c :: 0 <= i < |arrivals| && 0 <= j < |arrivals|
                         && Says(arrivals[i], k, c).Some? && Says(arrivals[j], k, c).Some? ==>
                           Says(arrivals[i], k, c) == Says(arrivals[j], k, c)
  }

  ghost predicate DistinctContexts(arrivals: seq<Arrival>) {
    forall i, j :: 0 <= i < j < |arrivals| ==> arrivals[i].context != arrivals[j].context
  }

  lemma DistinctContextsAreCompatible(arrivals: seq<Arrival>)
    requires DistinctContexts(arrivals)
    ensures Compatible(arrivals)
  {
    hide LastListed;
    forall i, j, k, c | 0 <= i < |arrivals| && 0 <= j < |arrivals|
                        && Says(arrivals[i], k, c).Some? && Says(arrivals[j], k, c).Some?
      ensures Says(arrivals[i], k, c) == Says(arrivals[j], k, c)
    {
      assert !(i < j) && !(j < i);
    }
  }

  lemma SameMembers<T>(a: seq<T>, b: seq<T>)
    requires multiset(a) == multiset(b)
    ensures forall x :: x in a <==> x in b
  {
    forall x ensures x in a <==> x in b {
      assert x in a <==> x in multiset(a);
      assert x in b <==> x in multiset(b);
    }
  }

  lemma MergedAgrees(a: seq<Arrival>, b: seq<Arrival>, k: AppKey, c: string)
    requires multiset(a) == multiset(b) && Compatible(a)
    ensures Merged(a, k, c) == Merged(b, k, c)
  {
    hide Merged, Says;
    MergedSource(a, k, c);
    MergedSource(b, k, c);
    SameMembers(a, b);
    if i :| 0 <= i < |a| && Says(a[i], k, c).Some? {
      assert a[i] in b;
    }
    if j :| 0 <= j < |b| && Says(b[j], k, c) == Merged(b, k, c) {
      assert b[j] in a;
    }
  }

  lemma SameEntries(x: Inventory, y: Inventory)
    requires NoEmptyEntry(x) && NoEmptyEntry(y) && forall k, c :: Entry(x, k, c) == Entry(y, k, c)
    ensures x == y
  {
    forall k ensures k in x <==> k in y {
      if k in x { var c :| c in x[k]; assert Entry(x, k, c).Some? && Entry(y, k, c).Some?; }
      if k in y { var c :| c in y[k]; assert Entry(y, k, c).Some? && Entry(x, k, c).Some?; }
    }
    forall k | k in x ensures x[k] == y[k] {
      forall c ensures c in x[k] <==> c in y[k] {
        assert Entry(x, k, c) == Entry(y, k, c);
      }
      forall c | c in x[k] ensures x[k][c] == y[k][c] {
        assert Entry(x, k, c) == Entry(y, k, c);
      }
    }
  }

  /** The inventory does not depend on the order of arrival exactly if answers under the same context
      agree; in particular (`DistinctContextsAreCompatible`) with distinct context names. */
  lemma Confluence(a: seq<Arrival>)
    ensures Compatible(a) <==>
            forall b, x, y | multiset(b) == multiset(a) && IsInventory(x, a) && IsInventory(y, b) :: x == y
  {
    hide Merged;
    if Compatible(a) {
      forall b, x, y | multiset(b) == multiset(a) && IsInventory(x, a) && IsInventory(y, b) ensures x == y {
        forall k, c ensures Entry(x, k, c) == Entry(y, k, c) {
          MergedAgrees(a, b, k, c);
        }
        SameEntries(x, y);
      }
    } else {
      var i, j, k, c :| 0 <= i < |a| && 0 <= j < |a| && Says(a[i], k, c).Some? && Says(a[j], k, c).Some?
                        && Says(a[i], k, c) != Says(a[j], k, c);
      OrderMatters(a, i, j, k, c);
    }
  }

  /** Moving one of two disagreeing answers to the end, or the other, gives different inventories. */
  lemma OrderMatters(a: seq<Arrival>, i: nat, j: nat, k: AppKey, c: string)
    requires i < |a| && j < |a| && Says(a[i], k, c).Some? && Says(a[j], k, c).Some?
    requires Says(a[i], k, c) != Says(a[j], k, c)
    ensures exists b, x, y :: multiset(b) == multiset(a) && IsInventory(x, a) && IsInventory(y, b) && x != y
  {
    hide Says, IsInventory;
    var p := ToEnd(a, i, k, c);
    var q := ToEnd(a, j, k, c);
    var x := InventoryExists(a);
    var y := InventoryExists(p);
    var z := InventoryExists(q);
    InventoryEntry(y, p, k, c);
    InventoryEntry(z, q, k, c);
    assert x != y || x != z;
  }

  lemma InventoryEntry(x: Inventory, a: seq<Arrival>, k: AppKey, c: string)
    requires IsInventory(x, a)
    ensures Entry(x, k, c) == Merged(a, k, c)
  {
  }

  lemma ToEnd(a: seq<Arrival>, i: nat, k: AppKey, c: string) returns (b: seq<Arrival>)
    requires i < |a| && Says(a[i], k, c).Some?
    ensures multiset(b) == multiset(a) && Merged(b, k, c) == Says(a[i], k, c)
  {
    hide Says;
    b := Without(a, i) + [a[i]];
    WithoutBag(a, i);
  }

  lemma {:induction false} InventoryExists(a: seq<Arrival>) returns (x: Inventory)
    ensures IsInventory(x, a)
  {
    x := map[];
    if a != [] {
      var before := InventoryExists(a[..|a| - 1]);
      x := Extended(before, a[..|a| - 1], a[|a| - 1]);
      assert a == a[..|a| - 1] + [a[|a| - 1]];
    }
  }

  /** `MergeOne`, as a lemma. */
  lemma Extended(before: Inventory, done: seq<Arrival>, a: Arrival) returns (inv: Inventory)
    requires IsInventory(before, done)
    ensures IsInventory(inv, done + [a])
  {
    hide Merged, LastListed, Entry;
    if a.answer.Unavailable? {
      SkipUnavailable(before, done, a);
      inv := before;
    } else {
      MergedLast(done, a);
      inv := OverlayExists(before, a.context, a.answer.apps);
    }
  }

  lemma OverlayExists(before: Inventory, at: string, apps: seq<Application>) returns (inv: Inventory)
    requires NoEmptyEntry(before)
    ensures NoEmptyEntry(inv)
    ensures forall k, c :: Entry(inv, k, c) == Overlay(LastListed(apps, k), at == c, Entry(before, k, c))
  {
    hide LastListed;
    var keys := before.Keys + set app | app in apps :: app.key;
    inv := map k | k in keys :: ExtendedEntry(before, k, at, LastListed(apps, k));
    forall k, c ensures Entry(inv, k, c) == Overlay(LastListed(apps, k), at == c, Entry(before, k, c)) {
      if k !in keys {
        assert LastListed(apps, k).None?;
      }
    }
    forall k | k in inv ensures inv[k] != map[] {
      if k !in before {
        assert at in inv[k];
      }
    }
  }

  function ExtendedEntry(before: Inventory, k: AppKey, c: string, last: Option<Application>): (m: map<string, Application>)
    ensures last.Some? ==> c in m
  {
    var entry := if k in before then before[k] else map[];
    if last.Some? then entry[c := last.value] else entry
  }

  /** Two failures under the same context have the same error. */
  ghost predicate ErrorsAgree(arrivals: seq<Arrival>) {
    forall i, j | 0 <= i < |arrivals| && 0 <= j < |arrivals| && arrivals[i].context == arrivals[j].context
                  && arrivals[i].answer.Unavailable? && arrivals[j].answer.Unavailable? ::
      arrivals[i] == arrivals[j]
  }

  lemma DistinctContextsErrorsAgree(arrivals: seq<Arrival>)
    requires DistinctContexts(arrivals)
    ensures ErrorsAgree(arrivals)
  {
    forall i, j | 0 <= i < |arrivals| && 0 <= j < |arrivals| && arrivals[i].context == arrivals[j].context
      ensures i == j
    {
      assert !(i < j) && !(j < i);
    }
  }

  lemma SameErrors(a: seq<Arrival>, b: seq<Arrival>, c: string)
    requires multiset(a) == multiset(b) && ErrorsAgree(a)
    ensures ErrorOf(a, c) == ErrorOf(b, c)
  {
    hide ErrorOf;
    ErrorSource(a, c);
    ErrorSource(b, c);
    SameMembers(a, b);
    if ErrorOf(a, c).Some? {
      assert Arrival(c, Unavailable(ErrorOf(a, c).value)) in b;
    }
    if ErrorOf(b, c).Some? {
      assert Arrival(c, Unavailable(ErrorOf(b, c).value)) in a;
    }
  }

  lemma SameErrorMaps(a: seq<Arrival>, b: seq<Arrival>, x: map<string, Err>, y: map<string, Err>)
    requires multiset(a) == multiset(b) && ErrorsAgree(a) && AreErrors(x, a) && AreErrors(y, b)
    ensures x == y
  {
    hide ErrorOf, ErrorsAgree;
    forall c ensures c in x <==> c in y {
      SameErrors(a, b, c);
    }
    forall c | c in x ensures x[c] == y[c] {
      SameErrors(a, b, c);
    }
  }

  lemma {:induction false} ErrorsExist(a: seq<Arrival>) returns (x: map<string, Err>)
    ensures AreErrors(x, a)
  {
    x := map[];
    if a != [] {
      x := ErrorsExist(a[..|a| - 1]);
      var last := a[|a| - 1];
      if last.answer.Unavailable? {
        x := x[last.context := last.answer.err];
      }
    }
  }

  lemma ErrorToEnd(a: seq<Arrival>, i: nat) returns (b: seq<Arrival>)
    requires i < |a| && a[i].answer.Unavailable?
    ensures multiset(b) == multiset(a) && ErrorOf(b, a[i].context) == Some(a[i].answer.err)
  {
    b := Without(a, i) + [a[i]];
    WithoutBag(a, i);
  }

  /** The recorded errors do not depend on the order of arrival exactly if failures under the same context
      agree; in particular with distinct context names. */
  lemma ErrorsConfluence(a: seq<Arrival>)
    ensures ErrorsAgree(a) <==>
            forall b, x, y | multiset(b) == multiset(a) && AreErrors(x, a) && AreErrors(y, b) :: x == y
  {
    hide ErrorOf;
    if ErrorsAgree(a) {
      forall b, x, y | multiset(b) == multiset(a) && AreErrors(x, a) && AreErrors(y, b) ensures x == y {
        SameErrorMaps(a, b, x, y);
      }
    } else {
      var i, j :| 0 <= i < |a| && 0 <= j < |a| && a[i].context == a[j].context
                  && a[i].answer.Unavailable? && a[j].answer.Unavailable? && a[i] != a[j];
      ErrorOrderMatters(a, i, j);
    }
  }

  lemma ErrorOrderMatters(a: seq<Arrival>, i: nat, j: nat)
    requires i < |a| && j < |a| && a[i].context == a[j].context && a[i] != a[j]
    requires a[i].answer.Unavailable? && a[j].answer.Unavailable?
    ensures exists b, x, y :: multiset(b) == multiset(a) && AreErrors(x, a) && AreErrors(y, b) && x != y
  {
    hide ErrorOf;
    var p := ErrorToEnd(a, i);
    var q := ErrorToEnd(a, j);
    var x := ErrorsExist(a);
    var y := ErrorsExist(p);
    var z := ErrorsExist(q);
    var c := a[i].context;
    assert c in y && y[c] == a[i].answer.err && c in z && z[c] == a[j].answer.err;
    assert x != y || x != z;
  }

  // ---- lists read off an inventory ----

  predicate NameLess(a: AppKey, b: AppKey) {
    Less(a.name, b.name)
  }

  lemma NameLessOrders()
    ensures TotalStrictOrder(NameLess)
  {
    hide Less;
    LessOrders();
  }

  ghost function KeysOf(inv: Inventory): (keys: seq<AppKey>)
    ensures Ascending(keys, NameLess) && Elements(keys) == inv.Keys && Distinct(keys)
    ensures forall i, j :: 0 <= i < j < |keys| ==> Less(keys[i].name, keys[j].name)
    ensures forall k :: k in keys <==> k in inv
  {
    NameLessOrders();
    var keys := SortedSet(inv.Keys, NameLess);
    assert forall k :: k in keys <==> k in Elements(keys);
    keys
  }

  method InventoryKeys(inv: Inventory) returns (keys: seq<AppKey>)
    ensures keys == KeysOf(inv)
  {
    NameLessOrders();
    var unsorted := Listed(inv.Keys);
    keys := SortKeys(unsorted, NameLess);
  }

  /** The clusters that host any of the applications. */
  function HostsOf(inv: Inventory, apps: seq<AppKey>): set<string> {
    set a, c | a in apps && a in inv && c in inv[a] :: c
  }

  ghost function ClustersOf(inv: Inventory, apps: seq<AppKey>): (out: seq<string>)
    ensures Ascending(out, Less) && Elements(out) == HostsOf(inv, apps) && Distinct(out)
    ensures forall c :: c in out <==> exists a :: a in apps && a in inv && c in inv[a]
  {
    LessOrders();
    var out := SortedSet(HostsOf(inv, apps), Less);
    assert forall c :: c in out <==> c in Elements(out);
    out
  }

  /** The clusters that host the applications, in order, or the first application that is unknown. */
  method ClustersForApps(inv: Inventory, apps: seq<AppKey>) returns (out: seq<string>, unknown: Option<AppKey>)
    ensures unknown.None? <==> forall a :: a in apps ==> a in inv
    ensures unknown.None? ==> out == ClustersOf(inv, apps)
    ensures unknown.Some? ==> out == [] && exists i :: 0 <= i < |apps| && apps[i] == unknown.value
                                                       && unknown.value !in inv && forall j :: 0 <= j < i ==> apps[j] in inv
  {
    hide Less;
    var found: set<string> := {};
    for i := 0 to |apps|
      invariant forall j :: 0 <= j < i ==> apps[j] in inv
      invariant found == HostsOf(inv, apps[..i])
    {
      if apps[i] !in inv {
        return [], Some(apps[i]);
      }
      assert apps[..i + 1] == apps[..i] + [apps[i]];
      found := found + inv[apps[i]].Keys;
    }
    assert apps[..|apps|] == apps;
    LessOrders();
    var names := Listed(found);
    out := SortKeys(names, Less);
    unknown := None;
  }
}
