/** `GET`/`POST /api/orders/weekly-bundle`: a basic-plan subscriber gets five in-stock products of
    their city, picked in random order. `Math.random` is abstracted by the sequence of choices the
    random comparator amounts to: any sequence gives a reordering, and every reordering is given
    by some sequence. */
module WeeklyBundle {
  import opened Wrappers
  import opened Seqs
  import opened Types
  import opened DataStore

  // ---------------------------------------------------------------- the random reordering

  /** `c` without its element at `k`. */
  function Without<T>(c: seq<T>, k: nat): (r: seq<T>)
    requires k < |c|
    ensures |r| == |c| - 1
  {
    c[..k] + c[k + 1..]
  }

  lemma WithoutMultiset<T>(c: seq<T>, k: nat)
    requires k < |c|
    ensures multiset(c) == multiset{c[k]} + multiset(Without(c, k))
  {
    assert c == c[..k] + [c[k]] + c[k + 1..];
  }

  /** The position the next choice picks among `c`: a choice out of range, or none left, picks the first. */
  function Pick<T>(c: seq<T>, choices: seq<nat>): (k: nat)
    ensures c != [] ==> k < |c|
  {
    if choices == [] || choices[0] >= |c| then 0 else choices[0]
  }

  /** The reordering a sequence of choices stands for: each choice picks, among the elements not
      yet placed, the next one. */
  function Shuffle<T>(c: seq<T>, choices: seq<nat>): (r: seq<T>)
    ensures |r| == |c|
    decreases |c|
  {
    if c == [] then []
    else
      var k := Pick(c, choices);
      [c[k]] + Shuffle(Without(c, k), if choices == [] then [] else choices[1..])
  }

  /** Any sequence of choices only reorders. */
  lemma {:induction false} ShuffleIsPermutation<T>(c: seq<T>, choices: seq<nat>)
    ensures multiset(Shuffle(c, choices)) == multiset(c)
    decreases |c|
  {
    if c != [] {
      var k := Pick(c, choices);
      var rest := if choices == [] then [] else choices[1..];
      ShuffleIsPermutation(Without(c, k), rest);
      WithoutMultiset(c, k);
      assert Shuffle(c, choices) == [c[k]] + Shuffle(Without(c, k), rest);
    }
  }

  lemma HeadAndTail<T>(p: seq<T>)
    requires p != []
    ensures multiset(p) == multiset{p[0]} + multiset(p[1..])
  {
    assert p == [p[0]] + p[1..];
  }

  lemma Cancel<T>(x: T, a: multiset<T>, b: multiset<T>)
    requires multiset{x} + a == multiset{x} + b
    ensures a == b
  {
    assert a == (multiset{x} + a) - multiset{x};
  }

  lemma SameLength<T>(p: seq<T>, c: seq<T>)
    requires multiset(p) == multiset(c)
    ensures |p| == |c|
  {
    assert |p| == |multiset(p)|;
  }

  /** Every reordering of `c` is the one some sequence of choices stands for. */
  lemma {:induction false} EveryOrderIsReachable<T>(c: seq<T>, p: seq<T>) returns (choices: seq<nat>)
    requires multiset(p) == multiset(c)
    ensures Shuffle(c, choices) == p
    decreases |c|
  {
    SameLength(p, c);
    if c == [] {
      choices := [];
    } else {
      assert p[0] in multiset(c);
      var k :| 0 <= k < |c| && c[k] == p[0];
      WithoutMultiset(c, k);
      HeadAndTail(p);
      Cancel(p[0], multiset(p[1..]), multiset(Without(c, k)));
      var more := EveryOrderIsReachable(Without(c, k), p[1..]);
      choices := [k] + more;
      assert choices[1..] == more;
      assert Pick(c, choices) == k;
      assert p == [p[0]] + p[1..];
    }
  }

  lemma WithoutKeepsDistinct<T>(c: seq<T>, k: nat)
    requires k < |c| && Distinct(c)
    ensures Distinct(Without(c, k)) && c[k] !in Without(c, k)
  {
    var w := Without(c, k);
    assert forall i :: 0 <= i < |w| ==> w[i] == c[if i < k then i else i + 1];
  }

  lemma ConsDistinct<T>(x: T, s: seq<T>)
    requires Distinct(s) && x !in s
    ensures Distinct([x] + s)
  {
    var r := [x] + s;
    assert forall i :: 0 < i < |r| ==> r[i] == s[i - 1];
  }

  /** A reordering of distinct elements repeats none. */
  lemma {:induction false} ShuffleKeepsDistinct<T>(c: seq<T>, choices: seq<nat>)
    requires Distinct(c)
    ensures Distinct(Shuffle(c, choices))
    decreases |c|
  {
    if c != [] {
      var k := Pick(c, choices);
      var rest := if choices == [] then [] else choices[1..];
      var w := Without(c, k);
      WithoutKeepsDistinct(c, k);
      ShuffleKeepsDistinct(w, rest);
      ShuffleIsPermutation(w, rest);
      assert c[k] !in multiset(Shuffle(w, rest));
      ConsDistinct(c[k], Shuffle(w, rest));
    }
  }

  // ---------------------------------------------------------------- the bundle

  const BundleSize := 5

  /** `p.available && p.quantity > 0`. */
  predicate InStock(p: Product)
  {
    p.available && p.quantity > 0.0
  }

  function Candidates(cityProducts: seq<Product>): seq<Product>
  {
    Filter(cityProducts, InStock)
  }

  /** `.slice(0, 5)` of the reordered candidates. */
  function Picked(candidates: seq<Product>, choices: seq<nat>): (r: seq<Product>)
    ensures |r| == (if |candidates| < BundleSize then |candidates| else BundleSize)
    ensures multiset(r) <= multiset(candidates)
  {
    var s := Shuffle(candidates, choices);
    ShuffleIsPermutation(candidates, choices);
    var n := if |s| < BundleSize then |s| else BundleSize;
    assert s == s[..n] + s[n..];
    s[..n]
  }

  datatype BundleItem = BundleItem(id: string, name: string, quantity: int, unit: string, price: real, farmId: string)

  function ItemFor(p: Product): BundleItem
  {
    BundleItem(p.id, p.name, 1, p.unit, p.price, p.farmId)
  }

  function Bundle(candidates: seq<Product>, choices: seq<nat>): seq<BundleItem>
  {
    Map(Picked(candidates, choices), ItemFor)
  }

  /** The bundle holds min(5, |candidates|) items, each from a different candidate, with quantity
      one and the candidate's id, name, unit, price and farm. */
  lemma BundleContents(candidates: seq<Product>, choices: seq<nat>)
    ensures var b := Bundle(candidates, choices); var picked := Picked(candidates, choices);
      |b| == (if |candidates| < 5 then |candidates| else 5)
      && multiset(picked) <= multiset(candidates)
      && forall i :: 0 <= i < |b| ==>
           picked[i] in candidates && b[i].quantity == 1
           && b[i] == BundleItem(picked[i].id, picked[i].name, 1, picked[i].unit, picked[i].price, picked[i].farmId)
  {
    var picked := Picked(candidates, choices);
    forall i | 0 <= i < |picked| ensures picked[i] in candidates {
      assert picked[i] in multiset(picked);
    }
  }

  /** Candidates that are all different give a bundle with no product twice. */
  lemma BundleHasNoRepeats(candidates: seq<Product>, choices: seq<nat>)
    requires Distinct(candidates)
    ensures Distinct(Picked(candidates, choices))
  {
    ShuffleKeepsDistinct(candidates, choices);
  }

  // ---------------------------------------------------------------- the handlers

  const GeneratedMessage := "Weekly bundle generated"

  /** The payloads: 401, 400 `Not a basic plan user`, and the bundle (with `POST`'s message). */
  datatype BundleResponse =
    | Unauthorized
    | NotBasicPlan
    | Bundled(items: seq<BundleItem>, message: Option<string>)
  {
    function Status(): nat
    {
      match this
      case Unauthorized => 401
      case NotBasicPlan => 400
      case Bundled(_, _) => 200
    }
  }

  /** Both handlers, which differ only in the message. The products are read through
      `getProducts(undefined, cityId)` and filtered into a fresh sequence, so the store is only read. */
  function Respond(store: Store, session: Session, choices: seq<nat>, message: Option<string>): BundleResponse
    reads store
  {
    if !SignedIn(session) then Unauthorized
    else match store.SubscriptionByUserId(session.value.id)
      case None => NotBasicPlan
      case Some(sub) =>
        if sub.plan != Basic then NotBasicPlan
        else Bundled(Bundle(Candidates(store.GetProducts(None, Some(sub.cityId))), choices), message)
  }

  function Get(store: Store, session: Session, choices: seq<nat>): BundleResponse
    reads store
  {
    Respond(store, session, choices, None)
  }

  function Post(store: Store, session: Session, choices: seq<nat>): BundleResponse
    reads store
  {
    Respond(store, session, choices, Some(GeneratedMessage))
  }

  /** 401 exactly without a signed-in user, 400 exactly for a user without a basic-plan
      subscription, and otherwise a bundle drawn from the in-stock products of the
      subscription's city. */
  lemma ResponseCases(store: Store, session: Session, choices: seq<nat>, message: Option<string>)
    ensures var r := Respond(store, session, choices, message);
      (r.Status() == 401 <==> !SignedIn(session))
      && (r.Status() == 400 <==>
            SignedIn(session)
            && (store.SubscriptionByUserId(session.value.id).None?
                || store.SubscriptionByUserId(session.value.id).value.plan != Basic))
      && (r.Bundled? ==>
            var sub := store.SubscriptionByUserId(session.value.id).value;
            r.message == message
            && r.items == Bundle(Candidates(SelectedProducts(store.products, store.farms, None, Some(sub.cityId))), choices))
  {
  }

  /** The candidates are exactly the city's products that are available and in stock. */
  lemma CandidatesAreInStock(cityProducts: seq<Product>)
    ensures var c := Candidates(cityProducts);
      (forall i :: 0 <= i < |c| ==> c[i] in cityProducts && c[i].available && c[i].quantity > 0.0)
      && (forall j :: 0 <= j < |cityProducts| && cityProducts[j].available && cityProducts[j].quantity > 0.0 ==>
            cityProducts[j] in c)
  {
  }
}
