/**
 * The per-user search history (app/api/searches/route.ts): a store of search
 * records, a GET handler that lists the signed-in user's five newest records
 * and a POST handler that records a city under the signed-in user's id.
 */
module SearchHistory {
  import opened Wrappers
  import opened Sessions
  import Seqs

  /** One row of the `weatherSearch` table. */
  datatype SearchRecord = SearchRecord(id: nat, city: string, userId: UserId, createdAt: nat)

  /** How many records GET returns at most (`take: 5`). */
  const PageSize: nat := 5

  const Unauthorized: string := "Unauthorized"
  const FetchFailed: string := "Failed to fetch searches"
  const CreateFailed: string := "Failed to create search"

  /** A JSON response: a 200 with a body, or `{ error: message }` with a status. */
  datatype Response<T> = Ok(body: T) | Error(status: nat, message: string)

  /** The request body of POST: not JSON at all, or JSON whose `city` is a string or is not. */
  datatype RequestBody = Malformed | Json(city: Option<string>)

  // ---------------------------------------------------------------------------
  // The query `findMany({ where: { userId }, orderBy: { createdAt: 'desc' }, take: 5 })`.

  /** The records owned by `uid`, in store order (`where: { userId }`). */
  function OwnedBy(records: seq<SearchRecord>, uid: UserId): (r: seq<SearchRecord>)
    ensures forall x :: x in r <==> x in records && x.userId == uid
  {
    Seqs.Filter(records, OwnerIs(uid))
  }

  /** The test of the `where` clause. */
  function OwnerIs(uid: UserId): SearchRecord -> bool
  {
    (x: SearchRecord) => x.userId == uid
  }

  /** Ordered by `createdAt`, newest first. */
  predicate NewestFirst(s: seq<SearchRecord>)
  {
    forall i, j :: 0 <= i < j < |s| ==> s[i].createdAt >= s[j].createdAt
  }

  /** Places `x` in front of the first record that is not newer than it. */
  function Insert(x: SearchRecord, s: seq<SearchRecord>): (r: seq<SearchRecord>)
    requires NewestFirst(s)
    ensures NewestFirst(r)
    ensures multiset(r) == multiset(s) + multiset{x}
  {
    if s == [] || s[0].createdAt <= x.createdAt then [x] + s
    else
      var rest := Insert(x, s[1..]);
      InsertBehindHead(x, s, rest);
      [s[0]] + rest
  }

  /** Putting the head of `s` back in front of `x` inserted into the tail keeps the order. */
  lemma InsertBehindHead(x: SearchRecord, s: seq<SearchRecord>, rest: seq<SearchRecord>)
    requires NewestFirst(s) && s != [] && x.createdAt < s[0].createdAt
    requires NewestFirst(rest) && multiset(rest) == multiset(s[1..]) + multiset{x}
    ensures NewestFirst([s[0]] + rest)
    ensures multiset([s[0]] + rest) == multiset(s) + multiset{x}
  {
    assert s == [s[0]] + s[1..];
    var r := [s[0]] + rest;
    forall i, j | 0 <= i < j < |r| ensures r[i].createdAt >= r[j].createdAt {
      assert r[j] == rest[j - 1];
      if i == 0 {
        var y := r[j];
        assert y in multiset(rest);
        if y != x {
          assert y in multiset(s[1..]);
          var k :| 0 <= k < |s[1..]| && s[1..][k] == y;
          assert s[k + 1] == y;
        }
      } else {
        assert r[i] == rest[i - 1];
      }
    }
  }

  /**
   * `orderBy: { createdAt: 'desc' }`. Records with equal `createdAt` come out
   * with the one stored later first; the database promises no order for them.
   */
  function SortNewestFirst(s: seq<SearchRecord>): (r: seq<SearchRecord>)
    ensures NewestFirst(r)
    ensures multiset(r) == multiset(s)
  {
    if s == [] then []
    else
      assert s == s[..|s| - 1] + [s[|s| - 1]];
      Insert(s[|s| - 1], SortNewestFirst(s[..|s| - 1]))
  }

  /** What GET returns for the user `uid`. */
  function Recent(records: seq<SearchRecord>, uid: UserId): (r: seq<SearchRecord>)
    ensures |r| <= PageSize
    ensures |r| == if |OwnedBy(records, uid)| < PageSize then |OwnedBy(records, uid)| else PageSize
    ensures forall x :: x in r ==> x in records && x.userId == uid
    ensures NewestFirst(r)
    ensures multiset(r) <= multiset(OwnedBy(records, uid))
    ensures forall x, j :: x in multiset(OwnedBy(records, uid)) - multiset(r) && 0 <= j < |r|
                           ==> x.createdAt <= r[j].createdAt
  {
    var owned := OwnedBy(records, uid);
    var sorted := SortNewestFirst(owned);
    var n := if |sorted| < PageSize then |sorted| else PageSize;
    FirstPage(records, uid, owned, sorted, n);
    sorted[..n]
  }

  /** The facts about the first `n` of the sorted owned records that `Recent` promises. */
  lemma FirstPage(records: seq<SearchRecord>, uid: UserId, owned: seq<SearchRecord>, sorted: seq<SearchRecord>, n: nat)
    requires forall x :: x in owned ==> x in records && x.userId == uid
    requires NewestFirst(sorted) && multiset(sorted) == multiset(owned)
    requires n == if |sorted| < PageSize then |sorted| else PageSize
    ensures |sorted| == |owned|
    ensures |sorted[..n]| == if |owned| < PageSize then |owned| else PageSize
    ensures NewestFirst(sorted[..n])
    ensures multiset(sorted[..n]) <= multiset(owned)
    ensures forall x :: x in sorted[..n] ==> x in records && x.userId == uid
    ensures forall x, j :: x in multiset(owned) - multiset(sorted[..n]) && 0 <= j < |sorted[..n]|
                           ==> x.createdAt <= sorted[..n][j].createdAt
  {
    assert |multiset(sorted)| == |multiset(owned)|;
    TakeNewest(sorted, n);
    MembersOfSubMultiset(sorted[..n], owned);
  }

  /** The first `n` records of a newest-first sequence are at least as new as all the rest. */
  lemma TakeNewest(s: seq<SearchRecord>, n: nat)
    requires NewestFirst(s) && n <= |s|
    ensures multiset(s[..n]) <= multiset(s)
    ensures forall x, j :: x in multiset(s) - multiset(s[..n]) && 0 <= j < n ==> x.createdAt <= s[..n][j].createdAt
  {
    var front, back := s[..n], s[n..];
    assert s == front + back;
    assert multiset(s) == multiset(front) + multiset(back);
    assert multiset(s) - multiset(front) == multiset(back);
    forall x, j | x in multiset(s) - multiset(front) && 0 <= j < n
      ensures x.createdAt <= front[j].createdAt
    {
      assert x in back;
      var k :| 0 <= k < |back| && back[k] == x;
      assert s[n + k] == x && s[j] == front[j];
    }
  }

  lemma MembersOfSubMultiset(a: seq<SearchRecord>, b: seq<SearchRecord>)
    requires multiset(a) <= multiset(b)
    ensures forall x :: x in a ==> x in b
  {
    forall x | x in a ensures x in b {
      assert x in multiset(a);
    }
  }

  // ---------------------------------------------------------------------------
  // Properties of the query.

  /** A record created by someone else leaves a user's listing exactly as it was. */
  lemma {:induction false} OthersRecordsInvisible(records: seq<SearchRecord>, rec: SearchRecord, uid: UserId)
    requires rec.userId != uid
    ensures Recent(records + [rec], uid) == Recent(records, uid)
  {
    Seqs.FilterSnoc(records, rec, OwnerIs(uid));
    assert !OwnerIs(uid)(rec);
    assert Seqs.Filter(records, OwnerIs(uid)) + [] == Seqs.Filter(records, OwnerIs(uid));
    assert OwnedBy(records + [rec], uid) == OwnedBy(records, uid);
  }

  /** A record newer than every stored one is first in its owner's listing. */
  lemma {:induction false} NewRecordListedFirst(records: seq<SearchRecord>, rec: SearchRecord)
    requires forall i :: 0 <= i < |records| ==> records[i].createdAt < rec.createdAt
    ensures Recent(records + [rec], rec.userId)[0] == rec
  {
    var owned := OwnedBy(records, rec.userId);
    OwnedSnoc(records, rec);
    var sorted := SortNewestFirst(owned);
    SortSnoc(owned, rec);
    NoneNewer(records, owned, sorted, rec);
    assert Insert(rec, sorted) == [rec] + sorted;
  }

  /** The new record joins its owner's records at the end. */
  lemma OwnedSnoc(records: seq<SearchRecord>, rec: SearchRecord)
    ensures OwnedBy(records + [rec], rec.userId) == OwnedBy(records, rec.userId) + [rec]
  {
    Seqs.FilterSnoc(records, rec, OwnerIs(rec.userId));
  }

  /** Sorting with one record appended inserts that record into the sorted rest. */
  lemma SortSnoc(s: seq<SearchRecord>, x: SearchRecord)
    ensures SortNewestFirst(s + [x]) == Insert(x, SortNewestFirst(s))
  {
    assert (s + [x])[..|s|] == s;
  }

  /** What is sorted from a user's stored records is no newer than a record newer than all of them. */
  lemma NoneNewer(records: seq<SearchRecord>, owned: seq<SearchRecord>, sorted: seq<SearchRecord>, rec: SearchRecord)
    requires forall i :: 0 <= i < |records| ==> records[i].createdAt < rec.createdAt
    requires forall x :: x in owned ==> x in records
    requires multiset(sorted) == multiset(owned)
    ensures sorted != [] ==> sorted[0].createdAt <= rec.createdAt
  {
    if sorted != [] {
      assert sorted[0] in multiset(owned);
      assert sorted[0] in records;
    }
  }

  // ---------------------------------------------------------------------------
  // The store and the two handlers.

  class Store {
    /** The table's rows, in insertion order. */
    var records: seq<SearchRecord>
    /** The id the next created row receives. */
    var nextId: nat

    /** Ids grow with insertion order and stay below `nextId`, so they are unique. */
    ghost predicate Valid()
      reads this
    {
      && (forall i :: 0 <= i < |records| ==> records[i].id < nextId)
      && (forall i, j :: 0 <= i < j < |records| ==> records[i].id < records[j].id)
    }

    constructor ()
      ensures Valid() && records == [] && nextId == 0
    {
      records := [];
      nextId := 0;
    }

    /**
     * GET /api/searches. `storeFails` stands for the database query throwing;
     * it only matters once a session was found.
     */
    method Get(lookup: SessionLookup, storeFails: bool) returns (resp: Response<seq<SearchRecord>>)
      ensures lookup.Threw? ==> resp == Error(500, FetchFailed)
      ensures lookup.Returned? && lookup.session.None? ==> resp == Error(401, Unauthorized)
      ensures SignedIn(lookup) && storeFails ==> resp == Error(500, FetchFailed)
      ensures resp.Ok? <==> SignedIn(lookup) && !storeFails
      ensures resp.Ok? ==> resp.body == Recent(records, lookup.session.value.userId)
      ensures resp.Ok? ==> forall x :: x in resp.body ==> x in records && x.userId == lookup.session.value.userId
      ensures resp.Ok? ==> |resp.body| <= PageSize && NewestFirst(resp.body)
    {
      match lookup {
        case Threw =>
          resp := Error(500, FetchFailed);
        case Returned(session, _) =>
          if session.None? {
            resp := Error(401, Unauthorized);
          } else if storeFails {
            resp := Error(500, FetchFailed);
          } else {
            resp := Ok(Recent(records, session.value.userId));
          }
      }
    }

    /**
     * POST /api/searches. The owner comes from the session, the city from the
     * body as sent; a body that is not JSON, a `city` that is missing or not a
     * string (the store rejects the row), or a failing store give a 500.
     */
    method Post(lookup: SessionLookup, body: RequestBody, storeFails: bool, now: nat)
      returns (resp: Response<SearchRecord>)
      requires Valid()
      modifies this
      ensures Valid()
      ensures lookup.Threw? ==> resp == Error(500, CreateFailed)
      ensures lookup.Returned? && lookup.session.None? ==> resp == Error(401, Unauthorized)
      ensures SignedIn(lookup) && (body.Malformed? || body.city.None? || storeFails)
              ==> resp == Error(500, CreateFailed)
      ensures resp.Ok? <==> SignedIn(lookup) && body.Json? && body.city.Some? && !storeFails
      ensures resp.Ok? ==>
                && resp.body == SearchRecord(old(nextId), body.city.value, lookup.session.value.userId, now)
                && records == old(records) + [resp.body]
                && nextId == old(nextId) + 1
      ensures !resp.Ok? ==> records == old(records) && nextId == old(nextId)
    {
      match lookup {
        case Threw =>
          resp := Error(500, CreateFailed);
        case Returned(session, _) =>
          if session.None? {
            resp := Error(401, Unauthorized);
          } else if body.Malformed? || body.city.None? || storeFails {
            resp := Error(500, CreateFailed);
          } else {
            var rec := SearchRecord(nextId, body.city.value, session.value.userId, now);
            records := records + [rec];
            nextId := nextId + 1;
            resp := Ok(rec);
          }
      }
    }
  }

  /** POST then GET by the same user, with a clock that has moved on, lists the new record first. */
  method CreateThenList(store: Store, session: Session, city: string, now: nat) returns (listed: seq<SearchRecord>)
    requires store.Valid()
    requires forall i :: 0 <= i < |store.records| ==> store.records[i].createdAt < now
    modifies store
    ensures store.Valid()
    ensures store.records == old(store.records) + [SearchRecord(old(store.nextId), city, session.userId, now)]
    ensures 1 <= |listed| <= PageSize
    ensures listed[0] == SearchRecord(old(store.nextId), city, session.userId, now)
  {
    var lookup := Returned(Some(session), None);
    var created := store.Post(lookup, Json(Some(city)), false, now);
    var resp := store.Get(lookup, false);
    assert created.Ok? && resp.Ok?;
    NewRecordListedFirst(old(store.records), created.body);
    listed := resp.body;
  }
}
