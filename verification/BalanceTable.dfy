/** The market's balance tables: token amounts by address, absent meaning zero. */
module BalanceTable {
  import opened FiniteSums
  import opened Wrappers

  type Address = nat
  type Table = map<Address, int>

  function Get(t: Table, a: Address): int {
    if a in t then t[a] else 0
  }

  /** Adds `v` (possibly negative) to a balance; a sum below zero is refused and leaves the
      table as it is. A balance that falls to zero is deleted, but adding zero to an absent
      balance stores a zero. */
  function Add(t: Table, a: Address, v: int): Table {
    var sum := Get(t, a) + v;
    if sum < 0 then t
    else if sum == 0 && Get(t, a) != 0 then t - {a}
    else t[a := sum]
  }

  /** `Add` moves exactly one balance, by exactly `v`, and the total with it. */
  lemma AddEffect(t: Table, a: Address, v: int)
    requires Get(t, a) + v >= 0
    ensures forall b: Address :: Get(Add(t, a, v), b) == Get(t, b) + (if a == b then v else 0)
    ensures Sum(Add(t, a, v)) == Sum(t) + v
    ensures forall b: Address :: b != a ==> (b in Add(t, a, v) <==> b in t)
    ensures a in Add(t, a, v) <==> Get(t, a) + v != 0 || Get(t, a) == 0
  {
    SumSet(t, a, Get(t, a) + v);
    SumDrop(t, a);
  }

  /** Subtracts `req` in full, or fails when the balance is smaller. */
  function MustSubtract(t: Table, a: Address, req: int): (r: Option<Table>)
    ensures r.Some? <==> req <= Get(t, a)
    ensures r.Some? ==> Get(r.value, a) == Get(t, a) - req && Sum(r.value) == Sum(t) - req
    ensures r.Some? ==> forall b: Address :: b != a ==> Get(r.value, b) == Get(t, b)
  {
    if req > Get(t, a) then None else
      AddEffect(t, a, -req);
      Some(Add(t, a, -req))
  }

  /** Subtracts as much of `req` as leaves at least `floor`, and says how much that was. */
  function SubtractWithMinimum(t: Table, a: Address, req: int, floor: int): (r: (int, Table))
    requires Get(t, a) >= 0 && req >= 0 && floor >= 0
    ensures 0 <= r.0 <= req
    ensures Get(t, a) >= floor ==> Get(r.1, a) >= floor
    ensures r.0 < req ==> r.0 == 0 || Get(r.1, a) == floor
    ensures Get(t, a) - floor >= req ==> r.0 == req
    ensures forall b: Address :: Get(r.1, b) == Get(t, b) - (if a == b then r.0 else 0)
    ensures Sum(r.1) == Sum(t) - r.0
  {
    var available := if Get(t, a) > floor then Get(t, a) - floor else 0;
    var sub := if available <= req then available else req;
    if sub > 0 then
      AddEffect(t, a, -sub);
      (sub, Add(t, a, -sub))
    else
      (sub, t)
  }
}
