/** The slip-list handlers: add a blank slip with the next id, remove a slip
    unless it is the last one, and edit one field of the slip with a given id. */
module Slips {
  import opened Common
  import opened ClaimItData

  /** No two slips of the list share an id. */
  predicate UniqueIds<F>(slips: seq<Slip<F>>) {
    forall i, j :: 0 <= i < j < |slips| ==> slips[i].id != slips[j].id
  }

  /** `Math.max(...slips.map(s => s.id))` on a non-empty list. */
  function MaxId<F>(slips: seq<Slip<F>>): (m: nat)
    requires slips != []
    ensures forall i :: 0 <= i < |slips| ==> slips[i].id <= m
    ensures exists i :: 0 <= i < |slips| && slips[i].id == m
  {
    if |slips| == 1 then slips[0].id
    else
      var rest := MaxId(slips[1..]);
      assert forall i :: 1 <= i < |slips| ==> slips[i] == slips[1..][i - 1];
      if slips[0].id >= rest then slips[0].id else rest
  }

  /** Appends a slip with the given empty fields and id one above the largest
      id in use; the list is never empty when the application calls this. */
  function AddSlip<F>(slips: seq<Slip<F>>, empty: F): (r: seq<Slip<F>>)
    requires slips != []
    ensures |r| == |slips| + 1 && r[..|slips|] == slips
    ensures r[|slips|].boxes == empty
    ensures forall i :: 0 <= i < |slips| ==> slips[i].id < r[|slips|].id
    ensures exists i :: 0 <= i < |slips| && r[|slips|].id == slips[i].id + 1
    ensures r[|slips|].id == MaxId(slips) + 1
    ensures UniqueIds(slips) ==> UniqueIds(r)
  {
    slips + [Slip(MaxId(slips) + 1, empty)]
  }

  /** `slips.filter(s => s.id !== id)`: the other slips, in their order. */
  function WithoutId<F>(slips: seq<Slip<F>>, id: nat): (r: seq<Slip<F>>)
    ensures forall i :: 0 <= i < |r| ==> r[i] in slips && r[i].id != id
    ensures forall i :: 0 <= i < |slips| && slips[i].id != id ==> slips[i] in r
    ensures (forall i :: 0 <= i < |slips| ==> slips[i].id != id) ==> r == slips
  {
    if slips == [] then []
    else if slips[0].id == id then WithoutId(slips[1..], id)
    else [slips[0]] + WithoutId(slips[1..], id)
  }

  /** Filtering distributes over concatenation, so the kept slips keep their
      relative order and the dropped ones leave no trace. */
  lemma {:induction false} WithoutIdConcat<F>(s: seq<Slip<F>>, t: seq<Slip<F>>, id: nat)
    ensures WithoutId(s + t, id) == WithoutId(s, id) + WithoutId(t, id)
  {
    if s == [] {
      assert s + t == t;
    } else {
      assert (s + t)[0] == s[0];
      assert (s + t)[1..] == s[1..] + t;
      WithoutIdConcat(s[1..], t, id);
    }
  }

  /** Filtering keeps ids distinct and, when they are distinct, drops at most one slip. */
  lemma {:induction false} WithoutIdUnique<F>(slips: seq<Slip<F>>, id: nat)
    requires UniqueIds(slips)
    ensures UniqueIds(WithoutId(slips, id))
    ensures |WithoutId(slips, id)| >= |slips| - 1
  {
    if slips != [] {
      var tail := slips[1..];
      assert UniqueIds(tail);
      WithoutIdUnique(tail, id);
      if slips[0].id == id {
        assert forall i :: 0 <= i < |tail| ==> tail[i].id != id;
      } else {
        var rest := WithoutId(tail, id);
        assert forall i :: 0 <= i < |rest| ==> rest[i].id != slips[0].id by {
          forall i | 0 <= i < |rest| ensures rest[i].id != slips[0].id {
            var k :| 0 <= k < |tail| && tail[k] == rest[i];
            assert slips[k + 1] == tail[k];
          }
        }
      }
    }
  }

  /** The remove button: drops the slip(s) with that id unless the list has
      only one slip, in which case nothing changes. With distinct ids a
      non-empty list stays non-empty. */
  function RemoveSlip<F>(slips: seq<Slip<F>>, id: nat): (r: seq<Slip<F>>)
    ensures |slips| <= 1 ==> r == slips
    ensures |slips| > 1 ==> forall i :: 0 <= i < |r| ==> r[i] in slips && r[i].id != id
    ensures |slips| > 1 ==> forall i :: 0 <= i < |slips| && slips[i].id != id ==> slips[i] in r
    ensures |slips| > 1 && UniqueIds(slips) ==>
      forall k :: 0 <= k < |slips| && slips[k].id == id ==> r == slips[..k] + slips[k + 1..]
  {
    if |slips| > 1 then
      if UniqueIds(slips) then
        WithoutIdAtAny(slips, id);
        WithoutId(slips, id)
      else WithoutId(slips, id)
    else slips
  }

  /** `WithoutIdAt` for whichever position holds the id. */
  lemma WithoutIdAtAny<F>(slips: seq<Slip<F>>, id: nat)
    requires UniqueIds(slips)
    ensures forall k :: 0 <= k < |slips| && slips[k].id == id ==> WithoutId(slips, id) == slips[..k] + slips[k + 1..]
  {
    forall k | 0 <= k < |slips| && slips[k].id == id
      ensures WithoutId(slips, id) == slips[..k] + slips[k + 1..]
    {
      WithoutIdAt(slips, k);
    }
  }

  /** Removing keeps ids distinct and never empties a list whose ids are
      distinct, so there is always at least one slip on screen. */
  lemma RemoveKeepsValid<F>(slips: seq<Slip<F>>, id: nat)
    requires slips != [] && UniqueIds(slips)
    ensures RemoveSlip(slips, id) != [] && UniqueIds(RemoveSlip(slips, id))
  {
    if |slips| > 1 {
      WithoutIdUnique(slips, id);
    }
  }

  /** A list none of whose slips has the id filters to itself. */
  lemma NoneMatch<F>(s: seq<Slip<F>>, id: nat)
    requires forall i :: 0 <= i < |s| ==> s[i].id != id
    ensures WithoutId(s, id) == s
  {
  }

  /** With distinct ids, filtering out the id of the slip at position `k`
      closes the gap and keeps the order of every other slip. */
  lemma WithoutIdAt<F>(slips: seq<Slip<F>>, k: nat)
    requires UniqueIds(slips) && k < |slips|
    ensures WithoutId(slips, slips[k].id) == slips[..k] + slips[k + 1..]
  {
    var id := slips[k].id;
    var front, mid, back := slips[..k], [slips[k]], slips[k + 1..];
    OthersAvoid(slips, k, front, back);
    NoneMatch(front, id);
    NoneMatch(back, id);
    assert WithoutId(mid, id) == [] by {
      assert mid[1..] == [];
    }
    WithoutIdConcat(front + mid, back, id);
    WithoutIdConcat(front, mid, id);
    calc {
      WithoutId(slips, id);
      { assert slips == (front + mid) + back; }
      WithoutId(front + mid, id) + WithoutId(back, id);
      (WithoutId(front, id) + WithoutId(mid, id)) + WithoutId(back, id);
      (front + []) + back;
      { assert front + [] == front; }
      front + back;
    }
  }

  /** With distinct ids, no slip before or after position `k` carries its id. */
  lemma OthersAvoid<F>(slips: seq<Slip<F>>, k: nat, front: seq<Slip<F>>, back: seq<Slip<F>>)
    requires UniqueIds(slips) && k < |slips|
    requires front == slips[..k] && back == slips[k + 1..]
    ensures forall i :: 0 <= i < |front| ==> front[i].id != slips[k].id
    ensures forall i :: 0 <= i < |back| ==> back[i].id != slips[k].id
  {
    forall i | 0 <= i < |front| ensures front[i].id != slips[k].id {
      assert front[i] == slips[i];
    }
    forall i | 0 <= i < |back| ensures back[i].id != slips[k].id {
      assert back[i] == slips[k + 1 + i];
    }
  }

  /** With distinct ids, removing the slip shown at position `k` (of more
      than one) leaves exactly the slips before and after it, in order: one
      slip fewer, and the positions shown on screen shift down by one past `k`. */
  lemma RemoveAt<F>(slips: seq<Slip<F>>, k: nat)
    requires UniqueIds(slips) && |slips| > 1 && k < |slips|
    ensures RemoveSlip(slips, slips[k].id) == slips[..k] + slips[k + 1..]
    ensures |RemoveSlip(slips, slips[k].id)| == |slips| - 1
  {
  }

  /** `slips.map(s => s.id === id ? edit(s) : s)` where the edit only touches
      the slip's fields, never its id. */
  function UpdateSlip<F>(slips: seq<Slip<F>>, id: nat, edit: F -> F): (r: seq<Slip<F>>)
    ensures |r| == |slips|
    ensures forall i :: 0 <= i < |slips| ==> r[i].id == slips[i].id
    ensures forall i :: 0 <= i < |slips| && slips[i].id != id ==> r[i] == slips[i]
    ensures forall i :: 0 <= i < |slips| && slips[i].id == id ==> r[i].boxes == edit(slips[i].boxes)
    ensures UniqueIds(slips) ==> UniqueIds(r)
  {
    seq(|slips|, i requires 0 <= i < |slips| =>
      if slips[i].id == id then Slip(id, edit(slips[i].boxes)) else slips[i])
  }

  /** `{ ...s, [field]: value }` on T4 fields. */
  function SetT4Field(b: T4Boxes, f: T4Field, v: Input<real>): (r: T4Boxes)
    ensures T4Get(r, f) == v
    ensures forall g :: g != f ==> T4Get(r, g) == T4Get(b, g)
  {
    match f
    case Employer => b.(employer := v)
    case Box14Income => b.(box14Income := v)
    case Box22TaxDeducted => b.(box22TaxDeducted := v)
    case Box16Cpp => b.(box16Cpp := v)
    case Box18Ei => b.(box18Ei := v)
    case Box20Rpp => b.(box20Rpp := v)
    case Box44UnionDues => b.(box44UnionDues := v)
  }

  /** `{ ...s, [field]: value }` on T5 fields. */
  function SetT5Field(b: T5Boxes, f: T5Field, v: Input<real>): (r: T5Boxes)
    ensures T5Get(r, f) == v
    ensures forall g :: g != f ==> T5Get(r, g) == T5Get(b, g)
  {
    match f
    case Institution => b.(institution := v)
    case Box13Interest => b.(box13Interest := v)
    case Box10DividendsActual => b.(box10DividendsActual := v)
    case Box11DividendsTaxable => b.(box11DividendsTaxable := v)
    case Box18CapitalGains => b.(box18CapitalGains := v)
  }

  // ---------------------------------------------------------------- per kind

  /** The "Add another T4" button: a blank T4 whose id exceeds every id in use. */
  function AddT4(slips: seq<T4Slip>): (r: seq<T4Slip>)
    requires slips != []
    ensures |r| == |slips| + 1 && r[..|slips|] == slips
    ensures r[|slips|] == CreateEmptyT4(r[|slips|].id)
    ensures forall i :: 0 <= i < |slips| ==> slips[i].id < r[|slips|].id
    ensures r[|slips|].id == MaxId(slips) + 1
    ensures UniqueIds(slips) ==> UniqueIds(r)
  {
    AddSlip(slips, CreateEmptyT4(0).boxes)
  }

  /** The "Add another T5/T3" button: a blank T5 whose id exceeds every id in use. */
  function AddT5(slips: seq<T5Slip>): (r: seq<T5Slip>)
    requires slips != []
    ensures |r| == |slips| + 1 && r[..|slips|] == slips
    ensures r[|slips|] == CreateEmptyT5(r[|slips|].id)
    ensures forall i :: 0 <= i < |slips| ==> slips[i].id < r[|slips|].id
    ensures r[|slips|].id == MaxId(slips) + 1
    ensures UniqueIds(slips) ==> UniqueIds(r)
  {
    AddSlip(slips, CreateEmptyT5(0).boxes)
  }

  /** Typing into one field of one T4 slip: only that field of the slip with
      that id changes; the length, every id and every other slip stay. */
  function UpdateT4(slips: seq<T4Slip>, id: nat, f: T4Field, v: Input<real>): (r: seq<T4Slip>)
    ensures |r| == |slips|
    ensures forall i :: 0 <= i < |slips| ==> r[i].id == slips[i].id
    ensures forall i :: 0 <= i < |slips| && slips[i].id != id ==> r[i] == slips[i]
    ensures forall i :: 0 <= i < |slips| && slips[i].id == id ==>
      T4Get(r[i].boxes, f) == v && forall g :: g != f ==> T4Get(r[i].boxes, g) == T4Get(slips[i].boxes, g)
    ensures UniqueIds(slips) ==> UniqueIds(r)
  {
    UpdateSlip(slips, id, b => SetT4Field(b, f, v))
  }

  /** Typing into one field of one T5 slip: only that field of the slip with
      that id changes; the length, every id and every other slip stay. */
  function UpdateT5(slips: seq<T5Slip>, id: nat, f: T5Field, v: Input<real>): (r: seq<T5Slip>)
    ensures |r| == |slips|
    ensures forall i :: 0 <= i < |slips| ==> r[i].id == slips[i].id
    ensures forall i :: 0 <= i < |slips| && slips[i].id != id ==> r[i] == slips[i]
    ensures forall i :: 0 <= i < |slips| && slips[i].id == id ==>
      T5Get(r[i].boxes, f) == v && forall g :: g != f ==> T5Get(r[i].boxes, g) == T5Get(slips[i].boxes, g)
    ensures UniqueIds(slips) ==> UniqueIds(r)
  {
    UpdateSlip(slips, id, b => SetT5Field(b, f, v))
  }

  /** The slip-list invariant: never empty, ids distinct. */
  predicate ValidSlips<F>(slips: seq<Slip<F>>) {
    slips != [] && UniqueIds(slips)
  }

  /** Every handler keeps the invariant, so a list that starts as one slip
      with id 1 keeps it whatever the user clicks. */
  lemma HandlersKeepValid(t4: seq<T4Slip>, t5: seq<T5Slip>, id: nat, f: T4Field, g: T5Field, v: Input<real>)
    requires ValidSlips(t4) && ValidSlips(t5)
    ensures ValidSlips([CreateEmptyT4(1)]) && ValidSlips([CreateEmptyT5(1)])
    ensures ValidSlips(AddT4(t4)) && ValidSlips(AddT5(t5))
    ensures ValidSlips(RemoveSlip(t4, id)) && ValidSlips(RemoveSlip(t5, id))
    ensures ValidSlips(UpdateT4(t4, id, f, v)) && ValidSlips(UpdateT5(t5, id, g, v))
  {
    RemoveKeepsValid(t4, id);
    RemoveKeepsValid(t5, id);
  }
}
