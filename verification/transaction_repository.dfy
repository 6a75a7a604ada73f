/**
 * The transaction store and its queries
 * (server/src/repositories/Transactions/Transaction.repository.ts), over an
 * in-memory sequence of documents in insertion order.
 */
module TransactionRepository {
  import opened Wrappers

  /** The `TransactionType` enumeration. */
  datatype TxType = Credit | Debit

  /** The string a stored type is written as, and matched against in queries. */
  function TypeName(t: TxType): (name: string)
    ensures name == "credit" || name == "debit"
  {
    match t
    case Credit => "credit"
    case Debit => "debit"
  }

  /** A stored transaction; `date` is its time value in milliseconds. */
  datatype Transaction = Transaction(
    id: string,
    amount: real,
    txType: TxType,
    userId: string,
    categoryId: string,
    note: Option<string>,
    date: int)

  type Store = seq<Transaction>

  /** The invariant the document store keeps: no two documents share an id. */
  ghost predicate UniqueIds(s: Store)
  {
    forall i, j :: 0 <= i < |s| && 0 <= j < |s| && s[i].id == s[j].id ==> i == j
  }

  predicate HasId(s: Store, id: string)
  {
    exists i :: 0 <= i < |s| && s[i].id == id
  }

  /** `findTransactionById`: the first document with that id, or null. */
  function FindById(s: Store, id: string): (r: Option<Transaction>)
    ensures r.None? <==> !HasId(s, id)
    ensures r.Some? ==> r.value in s && r.value.id == id
  {
    if |s| == 0 then None
    else if s[0].id == id then Some(s[0])
    else
      assert forall i :: 0 < i < |s| ==> s[i] == s[1..][i - 1];
      FindById(s[1..], id)
  }

  /** With unique ids, looking up a document's id finds that document. */
  lemma {:induction false} FindByIdUnique(s: Store, i: int)
    requires UniqueIds(s) && 0 <= i < |s|
    ensures FindById(s, s[i].id) == Some(s[i])
  {
    if i > 0 {
      assert s[0].id != s[i].id;
      assert UniqueIds(s[1..]) by {
        assert forall j :: 0 <= j < |s[1..]| ==> s[1..][j] == s[j + 1];
      }
      FindByIdUnique(s[1..], i - 1);
    }
  }

  /** The four list queries of the repository. */
  datatype Criteria =
    | ByUser(userId: string)
    | ByUserAndCategory(userId: string, categoryId: string)
    | ByUserAndType(userId: string, typeName: string)
    | ByUserAndDateRange(userId: string, startDate: int, endDate: int)

  /** The store's exact-match filter; the date range is inclusive at both ends. */
  predicate Matches(t: Transaction, c: Criteria)
  {
    match c
    case ByUser(u) => t.userId == u
    case ByUserAndCategory(u, cat) => t.userId == u && t.categoryId == cat
    case ByUserAndType(u, ty) => t.userId == u && TypeName(t.txType) == ty
    case ByUserAndDateRange(u, from, until) => t.userId == u && from <= t.date <= until
  }

  /** The documents that match, in store order. */
  function Filter(s: Store, c: Criteria): (r: seq<Transaction>)
    ensures forall t :: t in r <==> t in s && Matches(t, c)
    ensures forall t :: Matches(t, c) ==> multiset(r)[t] == multiset(s)[t]
    ensures forall t :: !Matches(t, c) ==> multiset(r)[t] == 0
  {
    if |s| == 0 then []
    else
      assert s == [s[0]] + s[1..];
      (if Matches(s[0], c) then [s[0]] else []) + Filter(s[1..], c)
  }

  /** The order every list query returns: `sort({ date: -1 })`. */
  ghost predicate NewestFirst(s: seq<Transaction>)
  {
    forall i, j :: 0 <= i < j < |s| ==> s[i].date >= s[j].date
  }

  /** A document no older than the head of a newest-first sequence can go in front of it. */
  lemma ConsNewestFirst(x: Transaction, rest: seq<Transaction>)
    requires NewestFirst(rest)
    requires |rest| > 0 ==> x.date >= rest[0].date
    ensures NewestFirst([x] + rest)
  {
    var r := [x] + rest;
    forall i, j | 0 <= i < j < |r| ensures r[i].date >= r[j].date {
      if i == 0 {
        assert r[j] == rest[j - 1];
        assert rest[0].date >= rest[j - 1].date || j - 1 == 0;
      } else {
        assert r[i] == rest[i - 1] && r[j] == rest[j - 1];
      }
    }
  }

  /** Places `t` into a newest-first sequence, before the documents no newer than it. */
  function Insert(t: Transaction, s: seq<Transaction>): (r: seq<Transaction>)
    requires NewestFirst(s)
    ensures |r| == |s| + 1
    ensures r[0] == t || (|s| > 0 && r[0] == s[0])
    ensures NewestFirst(r)
    ensures multiset(r) == multiset(s) + multiset{t}
  {
    if |s| == 0 then [t]
    else if t.date >= s[0].date then
      ConsNewestFirst(t, s);
      [t] + s
    else
      assert s == [s[0]] + s[1..];
      var rest := Insert(t, s[1..]);
      assert |s| > 1 ==> s[0].date >= s[1].date;
      ConsNewestFirst(s[0], rest);
      [s[0]] + rest
  }

  /** An insertion sort, newest first; it keeps exactly the same documents. */
  function SortNewestFirst(s: seq<Transaction>): (r: seq<Transaction>)
    ensures NewestFirst(r)
    ensures multiset(r) == multiset(s)
  {
    if |s| == 0 then []
    else
      assert s == [s[0]] + s[1..];
      Insert(s[0], SortNewestFirst(s[1..]))
  }

  /**
   * A list query: exactly the matching documents, each as often as it is
   * stored, newest first.
   */
  function Find(s: Store, c: Criteria): (r: seq<Transaction>)
    ensures NewestFirst(r)
    ensures forall t :: t in r <==> t in s && Matches(t, c)
    ensures forall t :: multiset(r)[t] == (if Matches(t, c) then multiset(s)[t] else 0)
  {
    var r := SortNewestFirst(Filter(s, c));
    assert forall t :: t in r <==> t in multiset(Filter(s, c));
    r
  }

  /** `createTransaction`: the new document joins the store under an id not yet used. */
  function Create(s: Store, t: Transaction): (r: Store)
    requires !HasId(s, t.id)
    ensures forall x :: x in r <==> x in s || x == t
    ensures UniqueIds(s) ==> UniqueIds(r)
    ensures FindById(r, t.id) == Some(t)
    ensures forall id :: id != t.id ==> FindById(r, id) == FindById(s, id)
  {
    var r := s + [t];
    FindByIdAppend(s, t);
    r
  }

  lemma {:induction false} FindByIdAppend(s: Store, t: Transaction)
    requires !HasId(s, t.id)
    ensures FindById(s + [t], t.id) == Some(t)
    ensures forall id :: id != t.id ==> FindById(s + [t], id) == FindById(s, id)
  {
    if |s| > 0 {
      assert (s + [t])[1..] == s[1..] + [t];
      assert !HasId(s[1..], t.id) by {
        assert forall j :: 0 <= j < |s[1..]| ==> s[1..][j] == s[j + 1];
      }
      FindByIdAppend(s[1..], t);
    }
  }

  /** The fields an update may change; None leaves the stored value as it is. */
  datatype Patch = Patch(amount: Option<real>, txType: Option<TxType>, note: Option<string>, date: Option<int>)

  const EmptyPatch := Patch(None, None, None, None)

  /** A document with a patch applied: the patched fields replaced, every other field unchanged. */
  function Merge(t: Transaction, p: Patch): (r: Transaction)
    ensures r.id == t.id && r.userId == t.userId && r.categoryId == t.categoryId
    ensures r.amount == (if p.amount.Some? then p.amount.value else t.amount)
    ensures r.txType == (if p.txType.Some? then p.txType.value else t.txType)
    ensures r.note == (if p.note.Some? then p.note else t.note)
    ensures r.date == (if p.date.Some? then p.date.value else t.date)
  {
    t.(amount := p.amount.GetOr(t.amount),
       txType := p.txType.GetOr(t.txType),
       note := if p.note.Some? then p.note else t.note,
       date := p.date.GetOr(t.date))
  }

  lemma MergeEmpty(t: Transaction)
    ensures Merge(t, EmptyPatch) == t
  {
  }

  lemma MergeIdempotent(t: Transaction, p: Patch)
    ensures Merge(Merge(t, p), p) == Merge(t, p)
  {
  }

  /** The store with the patch applied to the documents that carry `id`. */
  function Replace(s: Store, id: string, p: Patch): (r: Store)
    ensures |r| == |s|
    ensures forall i :: 0 <= i < |s| ==> r[i] == (if s[i].id == id then Merge(s[i], p) else s[i])
  {
    if |s| == 0 then []
    else [if s[0].id == id then Merge(s[0], p) else s[0]] + Replace(s[1..], id, p)
  }

  lemma {:induction false} FindAfterReplace(s: Store, id: string, p: Patch)
    requires HasId(s, id)
    ensures FindById(Replace(s, id, p), id) == Some(Merge(FindById(s, id).value, p))
  {
    if s[0].id != id {
      assert HasId(s[1..], id) by {
        var i :| 0 <= i < |s| && s[i].id == id;
        assert s[1..][i - 1] == s[i];
      }
      assert Replace(s, id, p)[1..] == Replace(s[1..], id, p);
      FindAfterReplace(s[1..], id, p);
    }
  }

  /**
   * `updateTransaction` (`findByIdAndUpdate` with `new: true`): null and an
   * unchanged store when the id is absent; otherwise the merged document,
   * with every other document untouched.
   */
  function Update(s: Store, id: string, p: Patch): (res: (Store, Option<Transaction>))
    ensures !HasId(s, id) ==> res.0 == s && res.1 == None
    ensures HasId(s, id) ==> res.1 == Some(Merge(FindById(s, id).value, p))
    ensures HasId(s, id) ==> FindById(res.0, id) == res.1
    ensures |res.0| == |s|
    ensures forall i :: 0 <= i < |s| && s[i].id == id ==> res.0[i] == Merge(s[i], p)
    ensures forall i :: 0 <= i < |s| && s[i].id != id ==> res.0[i] == s[i]
    ensures forall i :: 0 <= i < |s| ==> res.0[i].id == s[i].id
  {
    if !HasId(s, id) then (s, None)
    else
      var s' := Replace(s, id, p);
      FindAfterReplace(s, id, p);
      (s', FindById(s', id))
  }

  /** The store without the documents that carry `id`. */
  function Remove(s: Store, id: string): (r: Store)
    ensures forall t :: t in r <==> t in s && t.id != id
    ensures multiset(r) <= multiset(s)
  {
    if |s| == 0 then []
    else
      assert s == [s[0]] + s[1..];
      (if s[0].id == id then [] else [s[0]]) + Remove(s[1..], id)
  }

  /** `deleteTransaction`: true exactly when a document had that id; afterwards none has. */
  function Delete(s: Store, id: string): (res: (Store, bool))
    ensures res.1 <==> HasId(s, id)
    ensures !HasId(res.0, id)
    ensures forall t :: t in res.0 <==> t in s && t.id != id
    ensures !HasId(s, id) ==> res.0 == s
  {
    var found := FindById(s, id);
    var r := if found.Some? then Remove(s, id) else s;
    (r, found.Some?)
  }
}
