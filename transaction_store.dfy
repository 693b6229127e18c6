/** The in-memory transaction store: a module-level list that `create` appends to,
    `update` overwrites by index and `delete` splices. */
module TransactionStore {
  import opened Dates
  import opened Wrappers
  import opened Model

  /** The fields a caller passes to `create`: everything but the `Id`, and a date that
      may be missing. */
  datatype Draft = Draft(
    kind: Kind,
    amount: real,
    date: Option<Day>,
    recurrence: Recurrence,
    recurrenceEnd: Option<Day>,
    description: string,
    category: string)

  /** The fields a caller passes to `update`; a `None` field is not given and keeps
      its stored value. */
  datatype Patch = Patch(
    kind: Option<Kind>,
    amount: Option<real>,
    date: Option<Day>,
    recurrence: Option<Recurrence>,
    recurrenceEnd: Option<Option<Day>>,
    description: Option<string>,
    category: Option<string>)

  const NotFound: string := "Transaction not found"

  /** `Math.max(...ids, 0)`: the largest `Id`, or 0 for an empty list or when every `Id` is negative. */
  function MaxId(ts: seq<Transaction>): (m: int)
    ensures m >= 0
    ensures forall i | 0 <= i < |ts| :: ts[i].Id <= m
    ensures m == 0 || exists i | 0 <= i < |ts| :: ts[i].Id == m
  {
    if |ts| == 0 then 0
    else
      var rest := MaxId(ts[..|ts| - 1]);
      assert forall i | 0 <= i < |ts| - 1 :: ts[..|ts| - 1][i] == ts[i];
      if ts[|ts| - 1].Id > rest then ts[|ts| - 1].Id else rest
  }

  /** `findIndex` on the `Id`: the first position holding `id`. */
  function FindIndex(ts: seq<Transaction>, id: int): (r: Option<nat>)
    ensures r.Some? ==> r.value < |ts| && ts[r.value].Id == id && forall j | 0 <= j < r.value :: ts[j].Id != id
    ensures r.None? <==> forall j | 0 <= j < |ts| :: ts[j].Id != id
  {
    if |ts| == 0 then None
    else if ts[0].Id == id then Some(0)
    else
      match FindIndex(ts[1..], id)
      case None => None
      case Some(i) => Some(i + 1)
  }

  /** The stored entry built from a draft: the given fields, the new `Id`, and today's
      date when none was given. */
  function FromDraft(d: Draft, id: int, today: Day): (t: Transaction)
    ensures t.Id == id && t.date == (if d.date.Some? then d.date.value else today)
    ensures t.kind == d.kind && t.amount == d.amount && t.recurrence == d.recurrence
    ensures t.recurrenceEnd == d.recurrenceEnd && t.description == d.description && t.category == d.category
  {
    Transaction(id, d.kind, d.amount, if d.date.Some? then d.date.value else today,
                d.recurrence, d.recurrenceEnd, d.description, d.category)
  }

  /** `{...stored, ...patch, Id: stored.Id}`. */
  function ApplyPatch(t: Transaction, p: Patch): Transaction
  {
    Transaction(
      t.Id,
      if p.kind.Some? then p.kind.value else t.kind,
      if p.amount.Some? then p.amount.value else t.amount,
      if p.date.Some? then p.date.value else t.date,
      if p.recurrence.Some? then p.recurrence.value else t.recurrence,
      if p.recurrenceEnd.Some? then p.recurrenceEnd.value else t.recurrenceEnd,
      if p.description.Some? then p.description.value else t.description,
      if p.category.Some? then p.category.value else t.category)
  }

  /** A patch keeps the `Id`, and an empty patch changes nothing. Applying the same
      patch twice is the same as applying it once. */
  lemma PatchProperties(t: Transaction, p: Patch)
    ensures ApplyPatch(t, p).Id == t.Id
    ensures ApplyPatch(ApplyPatch(t, p), p) == ApplyPatch(t, p)
    ensures ApplyPatch(t, Patch(None, None, None, None, None, None, None)) == t
  {
  }

  /** A given field is overwritten, a field not given is kept. */
  lemma PatchOverwritesGivenFields(t: Transaction, p: Patch)
    ensures var r := ApplyPatch(t, p);
      && (p.amount.Some? ==> r.amount == p.amount.value) && (p.amount.None? ==> r.amount == t.amount)
      && (p.date.Some? ==> r.date == p.date.value) && (p.date.None? ==> r.date == t.date)
      && (p.kind.Some? ==> r.kind == p.kind.value) && (p.kind.None? ==> r.kind == t.kind)
      && (p.recurrence.Some? ==> r.recurrence == p.recurrence.value) && (p.recurrence.None? ==> r.recurrence == t.recurrence)
      && (p.recurrenceEnd.Some? ==> r.recurrenceEnd == p.recurrenceEnd.value) && (p.recurrenceEnd.None? ==> r.recurrenceEnd == t.recurrenceEnd)
      && (p.description.Some? ==> r.description == p.description.value) && (p.description.None? ==> r.description == t.description)
      && (p.category.Some? ==> r.category == p.category.value) && (p.category.None? ==> r.category == t.category)
  {
  }

  /** No two entries share an `Id`. */
  predicate DistinctIds(ts: seq<Transaction>) {
    forall i, j | 0 <= i < j < |ts| :: ts[i].Id != ts[j].Id
  }

  class Store {
    var transactions: seq<Transaction>

    constructor (initial: seq<Transaction>)
      ensures transactions == initial
    {
      transactions := initial;
    }

    /** `getAll`: a copy of every entry, in stored order. */
    method GetAll() returns (r: seq<Transaction>)
      ensures r == transactions
    {
      r := transactions;
    }

    /** `getById`: the first entry with that `Id`, or the "not found" error. */
    method GetById(id: int) returns (r: Result<Transaction>)
      ensures r.Ok? <==> exists i | 0 <= i < |transactions| :: transactions[i].Id == id
      ensures r.Ok? ==> r.value in transactions && r.value.Id == id
      ensures r.Ok? ==> r.value == transactions[FindIndex(transactions, id).value]
      ensures r.Err? ==> r.message == NotFound
    {
      var index := FindIndex(transactions, id);
      if index.None? {
        return Err(NotFound);
      }
      r := Ok(transactions[index.value]);
    }

    /** `create`: appends the draft under `Id` = the largest `Id` (at least 0) plus one. */
    method Create(d: Draft, today: Day) returns (created: Transaction)
      modifies this
      ensures created == FromDraft(d, MaxId(old(transactions)) + 1, today)
      ensures transactions == old(transactions) + [created]
    {
      var newId := MaxId(transactions) + 1;
      created := FromDraft(d, newId, today);
      transactions := transactions + [created];
    }

    /** `update`: overwrites the given fields of the first entry with that `Id`, in place. */
    method Update(id: int, p: Patch) returns (r: Result<Transaction>)
      modifies this
      ensures FindIndex(old(transactions), id).None? ==> r == Err(NotFound) && transactions == old(transactions)
      ensures FindIndex(old(transactions), id).Some? ==>
        var i := FindIndex(old(transactions), id).value;
        r == Ok(ApplyPatch(old(transactions)[i], p)) && transactions == old(transactions)[i := r.value]
    {
      var index := FindIndex(transactions, id);
      if index.None? {
        return Err(NotFound);
      }
      var updated := ApplyPatch(transactions[index.value], p);
      transactions := transactions[index.value := updated];
      r := Ok(updated);
    }

    /** `delete`: removes the first entry with that `Id` and returns `true`. */
    method Delete(id: int) returns (r: Result<bool>)
      modifies this
      ensures FindIndex(old(transactions), id).None? ==> r == Err(NotFound) && transactions == old(transactions)
      ensures FindIndex(old(transactions), id).Some? ==>
        var i := FindIndex(old(transactions), id).value;
        r == Ok(true) && transactions == old(transactions)[..i] + old(transactions)[i + 1..]
    {
      var index := FindIndex(transactions, id);
      if index.None? {
        return Err(NotFound);
      }
      transactions := transactions[..index.value] + transactions[index.value + 1..];
      r := Ok(true);
    }
  }

  // ---------------------------------------------------------------------------
  // What the three updates keep

  /** The first `Id` handed out in an empty store is 1, and a new `Id` is larger than
      every stored one, so appending it keeps the Ids distinct. */
  lemma CreateFreshId(ts: seq<Transaction>, d: Draft, today: Day)
    ensures MaxId([]) + 1 == 1
    ensures forall i | 0 <= i < |ts| :: ts[i].Id < MaxId(ts) + 1
    ensures DistinctIds(ts) ==> DistinctIds(ts + [FromDraft(d, MaxId(ts) + 1, today)])
  {
  }

  /** An update keeps every `Id` where it was, so the Ids stay distinct; every other
      entry is untouched. */
  lemma UpdateKeepsIds(ts: seq<Transaction>, i: nat, p: Patch)
    requires i < |ts|
    ensures var ts' := ts[i := ApplyPatch(ts[i], p)];
      |ts'| == |ts| && (forall j | 0 <= j < |ts| :: ts'[j].Id == ts[j].Id)
      && (forall j | 0 <= j < |ts| && j != i :: ts'[j] == ts[j])
      && (DistinctIds(ts) ==> DistinctIds(ts'))
  {
  }

  /** Deleting the first entry with `id` removes exactly that entry and keeps the rest in order. */
  lemma DeleteKeepsOrder(ts: seq<Transaction>, id: int)
    requires FindIndex(ts, id).Some?
    ensures var i := FindIndex(ts, id).value;
      var ts' := ts[..i] + ts[i + 1..];
      |ts'| == |ts| - 1
      && (forall j | 0 <= j < i :: ts'[j] == ts[j])
      && (forall j | i <= j < |ts'| :: ts'[j] == ts[j + 1])
  {
  }

  /** With distinct Ids, no entry with `id` remains after the delete (a second delete or
      a lookup fails) and the Ids stay distinct. */
  lemma DeleteRemovesId(ts: seq<Transaction>, id: int)
    requires FindIndex(ts, id).Some? && DistinctIds(ts)
    ensures var i := FindIndex(ts, id).value;
      var ts' := ts[..i] + ts[i + 1..];
      DistinctIds(ts') && FindIndex(ts', id).None?
  {
    var i := FindIndex(ts, id).value;
    var ts' := ts[..i] + ts[i + 1..];
    DeleteKeepsOrder(ts, id);
    forall a, b | 0 <= a < b < |ts'| ensures ts'[a].Id != ts'[b].Id {
      var a', b' := if a < i then a else a + 1, if b < i then b else b + 1;
      assert ts'[a] == ts[a'] && ts'[b] == ts[b'];
    }
    forall j | 0 <= j < |ts'| ensures ts'[j].Id != id {
      var j' := if j < i then j else j + 1;
      assert ts'[j] == ts[j'];
    }
  }
}
