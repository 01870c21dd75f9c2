/** Gateway row shapes read by the admin reports, and the per-car tally the
    report pages build with `forEach` over those rows. A JavaScript object
    used as a dictionary is modelled as its keys in insertion order plus the
    map from key to value. */
module Rows {
  import opened Common

  /** A `bookings` row as the report pages select it. */
  datatype BookingRow = BookingRow(carId: Option<string>, totalPrice: Option<int>, bookingDate: Option<string>)

  /** An `expenses` row as the report pages select it. */
  datatype ExpenseRow = ExpenseRow(carId: Option<string>, amount: Option<int>, expenseDate: Option<string>)

  /** A `cars` row reduced to `id, name`. */
  datatype CarRow = CarRow(id: string, name: string)

  /** `Number(x || 0)` for an integer-valued column: null counts as 0. */
  function Amount(x: Option<int>): int {
    if x.Some? then x.value else 0
  }

  /** One summand of a tally: the key it is filed under (if any), and its amount. */
  datatype Keyed = Keyed(key: Option<string>, amount: int)

  function BookingKeyed(b: BookingRow): Keyed { Keyed(b.carId, Amount(b.totalPrice)) }
  function ExpenseKeyed(e: ExpenseRow): Keyed { Keyed(e.carId, Amount(e.amount)) }

  function BookingEntries(bs: seq<BookingRow>): (r: seq<Keyed>)
    ensures |r| == |bs| && forall i :: 0 <= i < |bs| ==> r[i] == BookingKeyed(bs[i])
  {
    seq(|bs|, i requires 0 <= i < |bs| => BookingKeyed(bs[i]))
  }

  function ExpenseEntries(es: seq<ExpenseRow>): (r: seq<Keyed>)
    ensures |r| == |es| && forall i :: 0 <= i < |es| ==> r[i] == ExpenseKeyed(es[i])
  {
    seq(|es|, i requires 0 <= i < |es| => ExpenseKeyed(es[i]))
  }

  /** The sum of every entry's amount, keyed or not. */
  function Total(es: seq<Keyed>): int {
    if |es| == 0 then 0 else Total(es[..|es| - 1]) + es[|es| - 1].amount
  }

  /** Does the entry land in the bucket `k` (a truthy key equal to `k`)? */
  predicate KeyIs(e: Keyed, k: string) {
    e.key == Some(k) && k != ""
  }

  /** The sum of the amounts of the entries filed under `k`. */
  function SumFor(es: seq<Keyed>, k: string): int {
    if |es| == 0 then 0
    else SumFor(es[..|es| - 1], k) + (if KeyIs(es[|es| - 1], k) then es[|es| - 1].amount else 0)
  }

  /** The sum of the amounts of the entries with a truthy key. */
  function KeyedTotal(es: seq<Keyed>): int {
    if |es| == 0 then 0
    else KeyedTotal(es[..|es| - 1]) + (if Truthy(es[|es| - 1].key) then es[|es| - 1].amount else 0)
  }

  /** A dictionary with insertion-ordered keys. */
  datatype Tally = Tally(keys: seq<string>, sums: map<string, int>)

  const EmptyTally := Tally([], map[])

  /** The keys are listed once each, and the listed keys are those of the map. */
  ghost predicate WellFormed(t: Tally) {
    Distinct(t.keys) &&
    (forall k :: k in t.sums <==> k in t.keys)
  }

  /** `m[k] || 0`. */
  function Get(t: Tally, k: string): int {
    if k in t.sums then t.sums[k] else 0
  }

  /** `if (key) m[key] = (m[key] || 0) + amount`. */
  function AddTo(t: Tally, e: Keyed): (r: Tally)
    requires WellFormed(t)
    ensures WellFormed(r)
    ensures forall k :: Get(r, k) == Get(t, k) + (if KeyIs(e, k) then e.amount else 0)
    ensures forall k :: k in r.keys <==> k in t.keys || KeyIs(e, k)
    ensures |t.keys| <= |r.keys| && r.keys[..|t.keys|] == t.keys
  {
    if !Truthy(e.key) then t
    else
      var k := e.key.value;
      if k in t.sums then Tally(t.keys, t.sums[k := t.sums[k] + e.amount])
      else Tally(t.keys + [k], t.sums[k := e.amount])
  }

  /** The tally built by one `forEach` over the entries. */
  function TallyOf(es: seq<Keyed>): (r: Tally)
    ensures WellFormed(r)
  {
    if |es| == 0 then EmptyTally else AddTo(TallyOf(es[..|es| - 1]), es[|es| - 1])
  }

  /** Does some entry land in the bucket `k`? */
  predicate Occurs(es: seq<Keyed>, k: string) {
    exists i :: 0 <= i < |es| && KeyIs(es[i], k)
  }

  lemma OccursSnoc(es: seq<Keyed>, k: string)
    requires |es| > 0
    ensures Occurs(es, k) <==> Occurs(es[..|es| - 1], k) || KeyIs(es[|es| - 1], k)
  {
    var p := es[..|es| - 1];
    if Occurs(p, k) {
      var i :| 0 <= i < |p| && KeyIs(p[i], k);
      assert es[i] == p[i];
    }
    if Occurs(es, k) {
      var i :| 0 <= i < |es| && KeyIs(es[i], k);
      if i < |p| { assert es[i] == p[i]; }
    }
  }

  /** One more row extends the entry list by its entry, so the tally and the
      total each take one more step. */
  lemma SnocEntry(p: seq<Keyed>, q: seq<Keyed>, e: Keyed)
    requires q == p + [e]
    ensures TallyOf(q) == AddTo(TallyOf(p), e)
    ensures Total(q) == Total(p) + e.amount
  {
    assert q[..|q| - 1] == p;
  }

  /** Exactly the truthy keys that occur become keys of the tally. */
  lemma {:induction false} TallyKeys(es: seq<Keyed>, k: string)
    ensures k in TallyOf(es).keys <==> Occurs(es, k)
  {
    if |es| > 0 {
      TallyKeys(es[..|es| - 1], k);
      OccursSnoc(es, k);
    }
  }

  /** Each key's value is the sum of the amounts filed under it; a rowless
      key reads as 0. */
  lemma {:induction false} TallyValue(es: seq<Keyed>, k: string)
    ensures Get(TallyOf(es), k) == SumFor(es, k)
  {
    if |es| > 0 {
      TallyValue(es[..|es| - 1], k);
    }
  }

  /** The sum over a list of keys of a tally's values. */
  function SumOver(keys: seq<string>, t: Tally): int {
    if |keys| == 0 then 0 else SumOver(keys[..|keys| - 1], t) + Get(t, keys[|keys| - 1])
  }

  lemma {:induction false} SumOverUpdate(keys: seq<string>, t: Tally, k: string, d: int)
    requires Distinct(keys)
    ensures SumOver(keys, Tally(t.keys, t.sums[k := Get(t, k) + d])) == SumOver(keys, t) + (if k in keys then d else 0)
  {
    if |keys| > 0 {
      var p := keys[..|keys| - 1];
      SumOverUpdate(p, t, k, d);
      assert k in keys <==> k in p || k == keys[|keys| - 1];
      if k == keys[|keys| - 1] {
        assert k !in p by {
          forall i | 0 <= i < |p| ensures p[i] != k { assert p[i] == keys[i]; }
        }
      }
    }
  }

  lemma {:induction false} SumOverExtra(keys: seq<string>, t: Tally, k: string, v: int)
    requires k !in keys
    ensures SumOver(keys, Tally(t.keys + [k], t.sums[k := v])) == SumOver(keys, t)
  {
    if |keys| > 0 {
      SumOverExtra(keys[..|keys| - 1], t, k, v);
    }
  }

  lemma {:induction false} SumOverSameMap(keys: seq<string>, t: Tally, t': Tally)
    requires t.sums == t'.sums
    ensures SumOver(keys, t) == SumOver(keys, t')
  {
    if |keys| > 0 {
      SumOverSameMap(keys[..|keys| - 1], t, t');
    }
  }

  lemma AddToConserves(t: Tally, e: Keyed)
    requires WellFormed(t)
    ensures SumOver(AddTo(t, e).keys, AddTo(t, e)) == SumOver(t.keys, t) + (if Truthy(e.key) then e.amount else 0)
  {
    if Truthy(e.key) {
      var k := e.key.value;
      if k in t.sums {
        SumOverUpdate(t.keys, t, k, e.amount);
      } else {
        var r := Tally(t.keys + [k], t.sums[k := e.amount]);
        assert r.keys[..|t.keys|] == t.keys;
        SumOverExtra(t.keys, t, k, e.amount);
      }
    }
  }

  /** Summing the tally over its own keys gives the total of the keyed
      entries: nothing is lost or counted twice. */
  lemma {:induction false} TallyConserves(es: seq<Keyed>)
    ensures SumOver(TallyOf(es).keys, TallyOf(es)) == KeyedTotal(es)
  {
    if |es| > 0 {
      TallyConserves(es[..|es| - 1]);
      AddToConserves(TallyOf(es[..|es| - 1]), es[|es| - 1]);
    }
  }

  /** `m[k] = v`: an existing key keeps its place, a new one goes last. */
  function Put(t: Tally, k: string, v: int): (r: Tally)
    requires WellFormed(t)
    ensures WellFormed(r)
    ensures forall k' :: Get(r, k') == if k' == k then v else Get(t, k')
    ensures forall k' :: k' in r.keys <==> k' in t.keys || k' == k
    ensures k !in t.keys ==> r.keys == t.keys + [k]
  {
    if k in t.sums then Tally(t.keys, t.sums[k := v]) else Tally(t.keys + [k], t.sums[k := v])
  }

  /** `Object.keys({...a, ...b})` and `new Set([...keys(a), ...keys(b)])`:
      the keys of `a`, then those of `b` not already listed. */
  function UnionKeys(a: seq<string>, b: seq<string>): (r: seq<string>)
    ensures forall k :: k in r <==> k in a || k in b
    ensures |a| <= |r| && r[..|a|] == a
  {
    if |b| == 0 then a
    else
      var r := UnionKeys(a, b[..|b| - 1]);
      if b[|b| - 1] in r then r else r + [b[|b| - 1]]
  }

  lemma {:induction false} UnionKeysDistinct(a: seq<string>, b: seq<string>)
    requires Distinct(a)
    ensures Distinct(UnionKeys(a, b))
  {
    if |b| > 0 {
      UnionKeysDistinct(a, b[..|b| - 1]);
      var r := UnionKeys(a, b[..|b| - 1]);
      var x := b[|b| - 1];
      if x !in r {
        SnocDistinct(r, x);
      }
    }
  }

  lemma SnocDistinct(r: seq<string>, x: string)
    requires Distinct(r) && x !in r
    ensures Distinct(r + [x])
  {
    var r' := r + [x];
    forall i, j | 0 <= i < j < |r'| ensures r'[i] != r'[j] {
      assert r'[i] == r[i];
      if j < |r| { assert r'[j] == r[j]; }
    }
  }

  /** `carMap[c.id] = c.name` for every car row in order: a later row with
      the same id overwrites an earlier one. */
  function CarMapOf(cars: seq<CarRow>): (m: map<string, string>)
    ensures forall k :: k in m <==> exists i :: 0 <= i < |cars| && cars[i].id == k
  {
    if |cars| == 0 then map[]
    else
      var p := CarMapOf(cars[..|cars| - 1]);
      var c := cars[|cars| - 1];
      assert forall i :: 0 <= i < |cars| - 1 ==> cars[..|cars| - 1][i] == cars[i];
      p[c.id := c.name]
  }

  /** `(cars || []).forEach((c) => { carMap[c.id] = c.name; })`. */
  method CollectCarMap(cars: seq<CarRow>) returns (carMap: map<string, string>)
    ensures carMap == CarMapOf(cars)
  {
    carMap := map[];
    for i := 0 to |cars|
      invariant carMap == CarMapOf(cars[..i])
    {
      assert cars[..i + 1][..i] == cars[..i];
      carMap := carMap[cars[i].id := cars[i].name];
    }
    assert cars[..|cars|] == cars;
  }

  /** The `forEach` over booking rows: each price is added to the running
      total, and to its car's entry when the row names a car. */
  method TallyBookings(bookings: seq<BookingRow>) returns (incomeMap: Tally, totalIncome: int)
    ensures incomeMap == TallyOf(BookingEntries(bookings))
    ensures totalIncome == Total(BookingEntries(bookings))
  {
    incomeMap := EmptyTally;
    totalIncome := 0;
    for i := 0 to |bookings|
      invariant incomeMap == TallyOf(BookingEntries(bookings[..i]))
      invariant totalIncome == Total(BookingEntries(bookings[..i]))
    {
      var e := BookingKeyed(bookings[i]);
      totalIncome := totalIncome + e.amount;
      incomeMap := AddTo(incomeMap, e);
      SnocEntry(BookingEntries(bookings[..i]), BookingEntries(bookings[..i + 1]), e);
    }
    assert bookings[..|bookings|] == bookings;
  }

  /** The same pass over expense rows. */
  method TallyExpenses(expenses: seq<ExpenseRow>) returns (expenseMap: Tally, totalExpense: int)
    ensures expenseMap == TallyOf(ExpenseEntries(expenses))
    ensures totalExpense == Total(ExpenseEntries(expenses))
  {
    expenseMap := EmptyTally;
    totalExpense := 0;
    for i := 0 to |expenses|
      invariant expenseMap == TallyOf(ExpenseEntries(expenses[..i]))
      invariant totalExpense == Total(ExpenseEntries(expenses[..i]))
    {
      var e := ExpenseKeyed(expenses[i]);
      totalExpense := totalExpense + e.amount;
      expenseMap := AddTo(expenseMap, e);
      SnocEntry(ExpenseEntries(expenses[..i]), ExpenseEntries(expenses[..i + 1]), e);
    }
    assert expenses[..|expenses|] == expenses;
  }

  /** The name the last car row with that id gives, as `carMap[id]`. */
  lemma {:induction false} CarMapLastWins(cars: seq<CarRow>, i: nat)
    requires i < |cars|
    requires forall j :: i < j < |cars| ==> cars[j].id != cars[i].id
    ensures CarMapOf(cars)[cars[i].id] == cars[i].name
  {
    if i < |cars| - 1 {
      CarMapLastWins(cars[..|cars| - 1], i);
    }
  }

  /** `carMap[id] || fallback`. */
  function NameOr(carMap: map<string, string>, id: string, fallback: string): (r: string)
    ensures id in carMap && carMap[id] != "" ==> r == carMap[id]
    ensures id !in carMap || carMap[id] == "" ==> r == fallback
  {
    if id in carMap && carMap[id] != "" then carMap[id] else fallback
  }

  /** `cars.find((c) => c.id === id)`: the first car row with that id. */
  function FindCar(cars: seq<CarRow>, id: Option<string>): (r: Option<CarRow>)
    ensures r.Some? ==> exists i :: 0 <= i < |cars| && cars[i] == r.value && id == Some(cars[i].id) &&
                                    forall j :: 0 <= j < i ==> id != Some(cars[j].id)
    ensures r.None? <==> forall i :: 0 <= i < |cars| ==> id != Some(cars[i].id)
  {
    if |cars| == 0 then None
    else if id == Some(cars[0].id) then Some(cars[0])
    else
      var r := FindCar(cars[1..], id);
      assert r.Some? ==> exists i :: 1 <= i < |cars| && cars[i] == r.value && id == Some(cars[i].id) &&
                                     forall j :: 1 <= j < i ==> id != Some(cars[j].id);
      r
  }

  /** `cars.find((c) => c.id === id)?.name || fallback`. */
  function CarLabel(cars: seq<CarRow>, id: Option<string>, fallback: string): (r: string)
    ensures (forall i :: 0 <= i < |cars| ==> id != Some(cars[i].id)) ==> r == fallback
    ensures id.None? ==> r == fallback
    ensures r != fallback ==> exists i :: 0 <= i < |cars| && id == Some(cars[i].id) && r == cars[i].name
  {
    var c := FindCar(cars, id);
    if c.Some? && c.value.name != "" then c.value.name else fallback
  }

  /** The label is the first matching car's name when that is non-empty, and
      the fallback when no car matches or the name is empty. */
  lemma CarLabelFirst(cars: seq<CarRow>, id: Option<string>, fallback: string, i: nat)
    requires i < |cars| && id == Some(cars[i].id)
    requires forall j :: 0 <= j < i ==> id != Some(cars[j].id)
    ensures CarLabel(cars, id, fallback) == if cars[i].name != "" then cars[i].name else fallback
  {
    var c := FindCar(cars, id);
    var k :| 0 <= k < |cars| && cars[k] == c.value && id == Some(cars[k].id) &&
             forall j :: 0 <= j < k ==> id != Some(cars[j].id);
    assert k == i;
  }
}
