/**
 * The remote tables behind `api/database.py`: the `telegram_sessions` table with its
 * save/get/delete operations, the `config` key/value table and the `statistics` table.
 * The remote store is an in-memory sequence of rows per table; the wall clock is a
 * counter that every reading advances.
 */
module Database {
  import opened Common

  /** A row of `telegram_sessions`. Timestamps are clock readings. */
  datatype SessionRow = SessionRow(
    sessionString: string,
    phone: string,
    userId: Option<int>,
    username: Option<string>,
    firstName: Option<string>,
    lastName: Option<string>,
    createdAt: nat,
    updatedAt: nat)

  /** The columns one save writes; `created_at` is added only when a new row is inserted. */
  datatype SessionData = SessionData(
    sessionString: string,
    phone: string,
    userId: Option<int>,
    username: Option<string>,
    firstName: Option<string>,
    lastName: Option<string>,
    updatedAt: nat)

  /** The `data` dict of a save: the identity columns come from `user_data`, or are null without it. */
  function SessionDataOf(sessionString: string, phone: string, userData: Option<UserData>, now: nat): (d: SessionData)
    ensures d.sessionString == sessionString && d.phone == phone && d.updatedAt == now
    ensures userData.None? ==> d.userId.None? && d.username.None? && d.firstName.None? && d.lastName.None?
    ensures userData.Some? ==>
      && d.userId == Some(userData.value.id)
      && d.username == userData.value.username
      && d.firstName == userData.value.firstName
      && d.lastName == userData.value.lastName
  {
    match userData
    case None => SessionData(sessionString, phone, None, None, None, None, now)
    case Some(u) => SessionData(sessionString, phone, Some(u.id), u.username, u.firstName, u.lastName, now)
  }

  /** A row carries exactly what `d` wrote (its `created_at` aside). */
  predicate Written(row: SessionRow, d: SessionData)
  {
    && row.sessionString == d.sessionString
    && row.phone == d.phone
    && row.userId == d.userId
    && row.username == d.username
    && row.firstName == d.firstName
    && row.lastName == d.lastName
    && row.updatedAt == d.updatedAt
  }

  /** An existing row after `update(data)`: every written column replaced, `created_at` kept. */
  function Updated(row: SessionRow, d: SessionData): (r: SessionRow)
    ensures Written(r, d) && r.createdAt == row.createdAt
  {
    SessionRow(d.sessionString, d.phone, d.userId, d.username, d.firstName, d.lastName, row.createdAt, d.updatedAt)
  }

  /** The row `insert(data)` adds once `created_at` is set. */
  function Inserted(d: SessionData, createdAt: nat): (r: SessionRow)
    ensures Written(r, d) && r.createdAt == createdAt
  {
    SessionRow(d.sessionString, d.phone, d.userId, d.username, d.firstName, d.lastName, createdAt, d.updatedAt)
  }

  /** The position of the first row for `phone`, or `|rows|` when there is none. */
  function PhoneIndex(rows: seq<SessionRow>, phone: string): (k: nat)
    ensures k <= |rows|
    ensures k < |rows| ==> rows[k].phone == phone
    ensures forall j :: 0 <= j < k ==> rows[j].phone != phone
  {
    if rows == [] then 0
    else if rows[0].phone == phone then 0
    else 1 + PhoneIndex(rows[1..], phone)
  }

  /** `select('*').eq('phone', phone)` followed by `data[0]`: the first row for `phone`, if any. */
  function Find(rows: seq<SessionRow>, phone: string): (r: Option<SessionRow>)
    ensures r.None? <==> forall i :: 0 <= i < |rows| ==> rows[i].phone != phone
    ensures r.Some? ==> r.value.phone == phone && r.value in rows
  {
    var k := PhoneIndex(rows, phone);
    if k < |rows| then Some(rows[k]) else None
  }

  /** `order('updated_at', desc=True).limit(1)`: a row with the greatest `updated_at`, if any. */
  function Latest(rows: seq<SessionRow>): (r: Option<SessionRow>)
    ensures r.None? <==> rows == []
    ensures r.Some? ==> r.value in rows && forall i :: 0 <= i < |rows| ==> rows[i].updatedAt <= r.value.updatedAt
  {
    if rows == [] then None
    else
      var rest := Latest(rows[1..]);
      assert forall i :: 1 <= i < |rows| ==> rows[i] == rows[1..][i - 1];
      if rest.None? || rest.value.updatedAt <= rows[0].updatedAt then Some(rows[0]) else rest
  }

  /** `update(data).eq('phone', phone)`: every row for `phone` rewritten, the others untouched. */
  function UpdateWhere(rows: seq<SessionRow>, phone: string, d: SessionData): (r: seq<SessionRow>)
    ensures |r| == |rows|
    ensures forall i :: 0 <= i < |rows| ==> r[i] == if rows[i].phone == phone then Updated(rows[i], d) else rows[i]
  {
    if rows == [] then []
    else [if rows[0].phone == phone then Updated(rows[0], d) else rows[0]] + UpdateWhere(rows[1..], phone, d)
  }

  /** `delete().eq('phone', phone)`: the rows for `phone` removed, the others kept in order. */
  function DeleteWhere(rows: seq<SessionRow>, phone: string): (r: seq<SessionRow>)
    ensures |r| <= |rows|
    ensures forall i :: 0 <= i < |r| ==> r[i].phone != phone && r[i] in rows
    ensures forall i :: 0 <= i < |rows| && rows[i].phone != phone ==> rows[i] in r
    ensures Find(rows, phone).None? ==> r == rows
  {
    if rows == [] then []
    else if rows[0].phone == phone then DeleteWhere(rows[1..], phone)
    else [rows[0]] + DeleteWhere(rows[1..], phone)
  }

  /** How many times `x` occurs in `rows`. */
  function Occurrences(rows: seq<SessionRow>, x: SessionRow): nat
  {
    if rows == [] then 0 else (if rows[0] == x then 1 else 0) + Occurrences(rows[1..], x)
  }

  /** A delete keeps every other row exactly as often as it occurred, and drops every row for the phone. */
  lemma {:induction false} DeleteWhereCounts(rows: seq<SessionRow>, phone: string, x: SessionRow)
    ensures Occurrences(DeleteWhere(rows, phone), x) == if x.phone == phone then 0 else Occurrences(rows, x)
  {
    if rows != [] {
      DeleteWhereCounts(rows[1..], phone, x);
      if rows[0].phone != phone {
        var r := DeleteWhere(rows, phone);
        assert r[1..] == DeleteWhere(rows[1..], phone);
      }
    }
  }


  /** The table after a successful `save_telegram_session` that wrote `d`. */
  function SaveRows(rows: seq<SessionRow>, d: SessionData, createdAt: nat): (r: seq<SessionRow>)
    ensures |r| == |rows| + (if Find(rows, d.phone).Some? then 0 else 1)
    ensures forall i :: 0 <= i < |rows| ==> r[i].phone == rows[i].phone && r[i].createdAt == rows[i].createdAt
  {
    if Find(rows, d.phone).Some? then UpdateWhere(rows, d.phone, d) else rows + [Inserted(d, createdAt)]
  }

  /** The number of rows for `phone`. */
  function PhoneCount(rows: seq<SessionRow>, phone: string): nat
  {
    if rows == [] then 0 else (if rows[0].phone == phone then 1 else 0) + PhoneCount(rows[1..], phone)
  }

  /** At most one row per phone. */
  ghost predicate UniquePhones(rows: seq<SessionRow>)
  {
    forall i, j :: 0 <= i < j < |rows| ==> rows[i].phone != rows[j].phone
  }

  lemma {:induction false} PhoneCountAppend(rows: seq<SessionRow>, x: SessionRow, phone: string)
    ensures PhoneCount(rows + [x], phone) == PhoneCount(rows, phone) + (if x.phone == phone then 1 else 0)
  {
    if rows != [] {
      assert (rows + [x])[1..] == rows[1..] + [x];
      PhoneCountAppend(rows[1..], x, phone);
    }
  }

  lemma {:induction false} PhoneCountNone(rows: seq<SessionRow>, phone: string)
    requires Find(rows, phone).None?
    ensures PhoneCount(rows, phone) == 0
  {
    if rows != [] {
      PhoneCountNone(rows[1..], phone);
    }
  }

  lemma {:induction false} PhoneCountUpdate(rows: seq<SessionRow>, phone: string, d: SessionData, q: string)
    requires d.phone == phone
    ensures PhoneCount(UpdateWhere(rows, phone, d), q) == PhoneCount(rows, q)
  {
    if rows != [] {
      var r := UpdateWhere(rows, phone, d);
      assert r[1..] == UpdateWhere(rows[1..], phone, d);
      PhoneCountUpdate(rows[1..], phone, d, q);
    }
  }

  /** Two tables whose rows have the same phones position by position find a phone at the same place. */
  lemma {:induction false} PhoneIndexSamePhones(a: seq<SessionRow>, b: seq<SessionRow>, q: string)
    requires |a| == |b| && forall i :: 0 <= i < |a| ==> a[i].phone == b[i].phone
    ensures PhoneIndex(a, q) == PhoneIndex(b, q)
  {
    if a != [] {
      PhoneIndexSamePhones(a[1..], b[1..], q);
    }
  }

  lemma PhoneIndexAppend(rows: seq<SessionRow>, x: SessionRow, q: string)
    ensures PhoneIndex(rows + [x], q) ==
      if PhoneIndex(rows, q) < |rows| || x.phone == q then PhoneIndex(rows, q) else |rows| + 1
  {
    var s := rows + [x];
    assert forall j :: 0 <= j < |rows| ==> s[j] == rows[j];
    assert s[|rows|] == x;
  }

  /**
   * Saving an existing phone updates its rows in place: no row is added or removed, every
   * row keeps its phone and `created_at`, and the phone has as many rows as before.
   */
  lemma SaveUpdatesInPlace(rows: seq<SessionRow>, d: SessionData, createdAt: nat)
    requires Find(rows, d.phone).Some?
    ensures |SaveRows(rows, d, createdAt)| == |rows|
    ensures forall i :: 0 <= i < |rows| ==>
      SaveRows(rows, d, createdAt)[i].phone == rows[i].phone && SaveRows(rows, d, createdAt)[i].createdAt == rows[i].createdAt
    ensures PhoneCount(SaveRows(rows, d, createdAt), d.phone) == PhoneCount(rows, d.phone)
  {
    PhoneCountUpdate(rows, d.phone, d, d.phone);
  }

  /** Saving an absent phone appends exactly one row for it, carrying `created_at` and the written columns. */
  lemma SaveInsertsOne(rows: seq<SessionRow>, d: SessionData, createdAt: nat)
    requires Find(rows, d.phone).None?
    ensures SaveRows(rows, d, createdAt)[..|rows|] == rows
    ensures |SaveRows(rows, d, createdAt)| == |rows| + 1
    ensures var x := SaveRows(rows, d, createdAt)[|rows|]; Written(x, d) && x.createdAt == createdAt
    ensures PhoneCount(SaveRows(rows, d, createdAt), d.phone) == 1
  {
    PhoneCountNone(rows, d.phone);
    PhoneCountAppend(rows, Inserted(d, createdAt), d.phone);
  }

  /** Last write wins: after a save, the lookup by that phone returns what the save wrote. */
  lemma SaveThenFind(rows: seq<SessionRow>, d: SessionData, createdAt: nat)
    ensures Find(SaveRows(rows, d, createdAt), d.phone).Some?
    ensures Written(Find(SaveRows(rows, d, createdAt), d.phone).value, d)
  {
    var r := SaveRows(rows, d, createdAt);
    if Find(rows, d.phone).Some? {
      PhoneIndexSamePhones(r, rows, d.phone);
      var k := PhoneIndex(rows, d.phone);
      assert r[k] == Updated(rows[k], d);
    } else {
      PhoneIndexAppend(rows, Inserted(d, createdAt), d.phone);
    }
  }

  /** A save leaves the lookup of every other phone as it was. */
  lemma SaveOtherPhone(rows: seq<SessionRow>, d: SessionData, createdAt: nat, q: string)
    requires q != d.phone
    ensures Find(SaveRows(rows, d, createdAt), q) == Find(rows, q)
  {
    var r := SaveRows(rows, d, createdAt);
    if Find(rows, d.phone).Some? {
      PhoneIndexSamePhones(r, rows, q);
      var k := PhoneIndex(rows, q);
      if k < |rows| {
        assert r[k] == rows[k];
      }
    } else {
      PhoneIndexAppend(rows, Inserted(d, createdAt), q);
      var k := PhoneIndex(rows, q);
      if k < |rows| {
        assert r[k] == rows[k];
      }
    }
  }

  /** A save stamped later than every row is what the lookup without a phone returns. */
  lemma SaveThenLatest(rows: seq<SessionRow>, d: SessionData, createdAt: nat)
    requires forall i :: 0 <= i < |rows| ==> rows[i].updatedAt < d.updatedAt
    ensures Latest(SaveRows(rows, d, createdAt)).Some?
    ensures Written(Latest(SaveRows(rows, d, createdAt)).value, d)
  {
    var r := SaveRows(rows, d, createdAt);
    SaveThenFind(rows, d, createdAt);
    var w := Find(r, d.phone).value;
    forall k | 0 <= k < |r| ensures Written(r[k], d) || r[k].updatedAt < d.updatedAt {
      if Find(rows, d.phone).None? && k < |rows| {
        assert r[k] == rows[k];
      }
    }
    var v := Latest(r).value;
    var i :| 0 <= i < |r| && r[i] == v;
    var j :| 0 <= j < |r| && r[j] == w;
    assert w.updatedAt <= v.updatedAt;
  }

  /** A save keeps the table free of duplicate phones. */
  lemma SaveKeepsUnique(rows: seq<SessionRow>, d: SessionData, createdAt: nat)
    requires UniquePhones(rows)
    ensures UniquePhones(SaveRows(rows, d, createdAt))
  {
    var r := SaveRows(rows, d, createdAt);
    if Find(rows, d.phone).None? {
      forall i, j | 0 <= i < j < |r| ensures r[i].phone != r[j].phone {
        if j == |rows| {
          assert r[i] == rows[i];
        } else {
          assert r[i] == rows[i] && r[j] == rows[j];
        }
      }
    }
  }

  lemma {:induction false} FindCons(rows: seq<SessionRow>, q: string)
    requires rows != []
    ensures Find(rows, q) == if rows[0].phone == q then Some(rows[0]) else Find(rows[1..], q)
  {
  }

  /** A delete leaves the lookup of every other phone as it was. */
  lemma {:induction false} DeleteOtherPhone(rows: seq<SessionRow>, phone: string, q: string)
    requires q != phone
    ensures Find(DeleteWhere(rows, phone), q) == Find(rows, q)
  {
    if rows != [] {
      DeleteOtherPhone(rows[1..], phone, q);
      FindCons(rows, q);
      var r := DeleteWhere(rows, phone);
      if rows[0].phone != phone {
        assert r[1..] == DeleteWhere(rows[1..], phone);
        FindCons(r, q);
      }
    }
  }

  /** Deleting twice is deleting once. */
  lemma DeleteIdempotent(rows: seq<SessionRow>, phone: string)
    ensures DeleteWhere(DeleteWhere(rows, phone), phone) == DeleteWhere(rows, phone)
  {
  }

  // ---- the `config` and `statistics` key/value tables ----

  /** The position of the first row for `key`, or `|rows|` when there is none. */
  function KeyIndex(rows: seq<KeyValue>, key: string): (k: nat)
    ensures k <= |rows|
    ensures k < |rows| ==> rows[k].key == key
    ensures forall j :: 0 <= j < k ==> rows[j].key != key
  {
    if rows == [] then 0
    else if rows[0].key == key then 0
    else 1 + KeyIndex(rows[1..], key)
  }

  /** `select('value').eq('key', key)` followed by `data[0]['value']`: the value of the first row for `key`. */
  function Lookup(rows: seq<KeyValue>, key: string): (r: Option<Value>)
    ensures r.None? <==> forall i :: 0 <= i < |rows| ==> rows[i].key != key
    ensures r.Some? ==> exists i :: 0 <= i < |rows| && rows[i] == KeyValue(key, r.value) && forall j :: 0 <= j < i ==> rows[j].key != key
  {
    var k := KeyIndex(rows, key);
    if k < |rows| then Some(rows[k].value) else None
  }

  /** No two rows share a key (`key` is the table's primary key). */
  ghost predicate UniqueKeys(rows: seq<KeyValue>)
  {
    forall i, j :: 0 <= i < j < |rows| ==> rows[i].key != rows[j].key
  }

  /** `upsert({'key': key, 'value': value})`: the row for `key` gets `value`, or a new row is appended. */
  function UpsertConfig(rows: seq<KeyValue>, key: string, value: Value): (r: seq<KeyValue>)
    ensures |r| == |rows| + (if Lookup(rows, key).None? then 1 else 0)
    ensures forall i :: 0 <= i < |r| ==> r[i] == KeyValue(key, value) || (i < |rows| && r[i] == rows[i])
  {
    var k := KeyIndex(rows, key);
    if k < |rows| then rows[k := KeyValue(key, value)] else rows + [KeyValue(key, value)]
  }

  /** After an upsert the key reads back the value written, and the table keeps one row per key. */
  lemma UpsertThenLookup(rows: seq<KeyValue>, key: string, value: Value)
    requires UniqueKeys(rows)
    ensures Lookup(UpsertConfig(rows, key, value), key) == Some(value)
    ensures UniqueKeys(UpsertConfig(rows, key, value))
  {
    var r := UpsertConfig(rows, key, value);
    var k := KeyIndex(rows, key);
    assert k < |r| && r[k] == KeyValue(key, value);
    assert forall j :: 0 <= j < k ==> r[j] == rows[j];
    assert KeyIndex(r, key) == k;
    if k == |rows| {
      forall i, j | 0 <= i < j < |r| ensures r[i].key != r[j].key {
        assert r[i] == rows[i];
      }
    }
  }

  /** An upsert leaves every other key as it was. */
  lemma UpsertOtherKey(rows: seq<KeyValue>, key: string, value: Value, other: string)
    requires other != key
    ensures Lookup(UpsertConfig(rows, key, value), other) == Lookup(rows, other)
  {
    var r := UpsertConfig(rows, key, value);
    var k := KeyIndex(rows, other);
    assert forall j :: 0 <= j < |r| ==> (j < |rows| && r[j] == rows[j]) || r[j].key == key;
    if k < |rows| {
      assert KeyIndex(r, other) == k;
    }
  }

  /** The dict `get_statistics` fills: each row's key mapped to its value, later rows overwriting earlier ones. */
  function StatsOf(rows: seq<KeyValue>): (m: map<string, Value>)
    ensures forall k :: k in m ==> exists i :: 0 <= i < |rows| && rows[i] == KeyValue(k, m[k])
  {
    if rows == [] then map[]
    else StatsOf(rows[..|rows| - 1])[rows[|rows| - 1].key := rows[|rows| - 1].value]
  }

  /** A key is in the dict exactly when some row carries it. */
  lemma {:induction false} StatsOfKeys(rows: seq<KeyValue>, k: string)
    ensures k in StatsOf(rows) <==> exists i :: 0 <= i < |rows| && rows[i].key == k
  {
    if rows != [] {
      var init := rows[..|rows| - 1];
      StatsOfKeys(init, k);
      if k in StatsOf(init) {
        var i :| 0 <= i < |init| && init[i].key == k;
        assert rows[i].key == k;
      }
      if exists i :: 0 <= i < |rows| && rows[i].key == k {
        var i :| 0 <= i < |rows| && rows[i].key == k;
        if i < |init| {
          assert init[i].key == k;
        }
      }
    }
  }

  /** A key maps to the value of the last row that carries it: later rows overwrite earlier ones. */
  lemma {:induction false} StatsOfLastWins(rows: seq<KeyValue>, i: nat)
    requires i < |rows|
    requires forall j :: i < j < |rows| ==> rows[j].key != rows[i].key
    ensures rows[i].key in StatsOf(rows) && StatsOf(rows)[rows[i].key] == rows[i].value
  {
    if i < |rows| - 1 {
      var init := rows[..|rows| - 1];
      assert init[i] == rows[i];
      assert forall j :: i < j < |init| ==> init[j] == rows[j];
      StatsOfLastWins(init, i);
    }
  }

  /** What one successful save guarantees about the table `r` it leaves, gathered for `Database.SaveSession`. */
  lemma SaveFacts(rows: seq<SessionRow>, d: SessionData, createdAt: nat, r: seq<SessionRow>)
    requires forall i :: 0 <= i < |rows| ==> rows[i].createdAt < d.updatedAt && rows[i].updatedAt < d.updatedAt
    requires r == SaveRows(rows, d, createdAt)
    ensures forall i :: 0 <= i < |r| ==>
      r[i].updatedAt <= d.updatedAt && (r[i].createdAt < d.updatedAt || (Find(rows, d.phone).None? && r[i].createdAt == createdAt))
    ensures Find(r, d.phone).Some? && Written(Find(r, d.phone).value, d)
    ensures Latest(r).Some? && Written(Latest(r).value, d)
    ensures forall q :: q != d.phone ==> Find(r, q) == Find(rows, q)
  {
    SaveThenFind(rows, d, createdAt);
    SaveThenLatest(rows, d, createdAt);
    forall q | q != d.phone ensures Find(r, q) == Find(rows, q) {
      SaveOtherPhone(rows, d, createdAt, q);
    }
    forall i | 0 <= i < |r|
      ensures r[i].updatedAt <= d.updatedAt
      ensures r[i].createdAt < d.updatedAt || (Find(rows, d.phone).None? && r[i].createdAt == createdAt)
    {
      if Find(rows, d.phone).None? && i < |rows| {
        assert r[i] == rows[i];
      }
    }
  }

  const TotalDealsKey := "total_deals"
  const DisputesResolvedKey := "disputes_resolved"

  /** What `get_statistics` returns without a client or when the query fails. */
  function DefaultStatistics(): map<string, Value>
  {
    map[TotalDealsKey := Int(0), DisputesResolvedKey := Int(0)]
  }

  /**
   * The module-level Supabase client and the three tables it reaches. `connected` is false
   * when no client could be built (`supabase = None`); a `fault` argument says that the
   * remote call raised, which every operation catches.
   */
  class Database {
    const connected: bool
    var sessions: seq<SessionRow>
    var config: seq<KeyValue>
    var statistics: seq<KeyValue>
    var clock: nat

    /** Every timestamp in the sessions table was read before the clock's current value; config keys are unique. */
    ghost predicate Valid()
      reads this
    {
      && (forall i :: 0 <= i < |sessions| ==> sessions[i].createdAt < clock && sessions[i].updatedAt < clock)
      && UniqueKeys(config)
    }

    constructor (connected: bool, sessions: seq<SessionRow>, config: seq<KeyValue>, statistics: seq<KeyValue>, clock: nat)
      requires forall i :: 0 <= i < |sessions| ==> sessions[i].createdAt < clock && sessions[i].updatedAt < clock
      requires UniqueKeys(config)
      ensures Valid()
      ensures this.connected == connected && this.sessions == sessions && this.config == config
      ensures this.statistics == statistics && this.clock == clock
    {
      this.connected := connected;
      this.sessions := sessions;
      this.config := config;
      this.statistics := statistics;
      this.clock := clock;
    }

    /** `datetime.now()`: a reading later than every earlier one. */
    method Now() returns (t: nat)
      modifies this`clock
      ensures t == old(clock) && clock == old(clock) + 1
    {
      t := clock;
      clock := clock + 1;
    }

    /** `save_telegram_session(session_string, phone, user_data)`. */
    method SaveSession(sessionString: string, phone: string, userData: Option<UserData>, fault: bool) returns (ok: bool)
      requires Valid()
      modifies this
      ensures Valid()
      ensures ok <==> connected && !fault
      ensures config == old(config) && statistics == old(statistics)
      ensures !connected ==> sessions == old(sessions) && clock == old(clock)
      ensures !ok ==> sessions == old(sessions)
      ensures connected && fault ==> clock == old(clock) + 1
      ensures ok ==> clock == old(clock) + if Find(old(sessions), phone).Some? then 1 else 2
      ensures ok ==> sessions == SaveRows(old(sessions), SessionDataOf(sessionString, phone, userData, old(clock)), old(clock) + 1)
      ensures ok ==>
        Find(sessions, phone).Some? &&
        Written(Find(sessions, phone).value, SessionDataOf(sessionString, phone, userData, old(clock)))
      ensures ok ==>
        Latest(sessions).Some? &&
        Written(Latest(sessions).value, SessionDataOf(sessionString, phone, userData, old(clock)))
      ensures ok ==> forall q :: q != phone ==> Find(sessions, q) == Find(old(sessions), q)
    {
      ok := false;
      if connected {
        var now := Now();
        var d := SessionDataOf(sessionString, phone, userData, now);
        if !fault {
          ghost var before := sessions;
          if Find(sessions, phone).Some? {
            sessions := UpdateWhere(sessions, phone, d);
          } else {
            var created := Now();
            sessions := sessions + [Inserted(d, created)];
          }
          SaveFacts(before, d, now + 1, sessions);
          ok := true;
        }
      }
    }

    /** `get_telegram_session(phone)`: by phone when one is given and non-empty, otherwise the latest row. */
    function GetSession(phone: Option<string>, fault: bool): (r: Option<SessionRow>)
      reads this
      ensures !connected || fault ==> r.None?
      ensures connected && !fault && phone.Some? && phone.value != "" ==>
        (r.None? <==> forall i :: 0 <= i < |sessions| ==> sessions[i].phone != phone.value) &&
        (r.Some? ==> r.value == sessions[PhoneIndex(sessions, phone.value)])
      ensures connected && !fault && (phone.None? || phone.value == "") ==>
        (r.None? <==> sessions == []) &&
        (r.Some? ==> r.value in sessions && forall i :: 0 <= i < |sessions| ==> sessions[i].updatedAt <= r.value.updatedAt)
    {
      if !connected || fault then None
      else if phone.Some? && phone.value != "" then Find(sessions, phone.value)
      else Latest(sessions)
    }

    /** `delete_telegram_session(phone)`: succeeds whether or not the phone had a row. */
    method DeleteSession(phone: string, fault: bool) returns (ok: bool)
      requires Valid()
      modifies this`sessions
      ensures Valid()
      ensures ok <==> connected && !fault
      ensures ok ==> sessions == DeleteWhere(old(sessions), phone)
      ensures !ok ==> sessions == old(sessions)
      ensures ok ==> Find(sessions, phone).None?
      ensures ok ==> forall q :: q != phone ==> Find(sessions, q) == Find(old(sessions), q)
    {
      if !connected || fault {
        return false;
      }
      ghost var before := sessions;
      sessions := DeleteWhere(sessions, phone);
      forall q | q != phone ensures Find(sessions, q) == Find(before, q) {
        DeleteOtherPhone(before, phone, q);
      }
      ok := true;
    }

    /** `get_config(key)`: the value of the first row for `key`, `None` when absent, unconfigured or failing. */
    function GetConfig(key: string, fault: bool): (v: Value)
      reads this
      ensures !connected || fault ==> v == Null
      ensures connected && !fault && (forall i :: 0 <= i < |config| ==> config[i].key != key) ==> v == Null
      ensures connected && !fault && (exists i :: 0 <= i < |config| && config[i].key == key) ==>
        exists i :: 0 <= i < |config| && config[i] == KeyValue(key, v) && forall j :: 0 <= j < i ==> config[j].key != key
    {
      if !connected || fault then Null
      else match Lookup(config, key)
        case Some(v) => v
        case None => Null
    }

    /** `update_config(key, value)`. */
    method UpdateConfig(key: string, value: Value, fault: bool) returns (ok: bool)
      requires Valid()
      modifies this`config
      ensures Valid()
      ensures ok <==> connected && !fault
      ensures ok ==> config == UpsertConfig(old(config), key, value)
      ensures !ok ==> config == old(config)
      ensures ok ==> GetConfig(key, false) == value
      ensures ok ==> forall k :: k != key ==> GetConfig(k, false) == old(GetConfig(k, false))
    {
      if !connected || fault {
        return false;
      }
      ghost var before := config;
      UpsertThenLookup(config, key, value);
      config := UpsertConfig(config, key, value);
      forall k | k != key ensures Lookup(config, k) == Lookup(before, k) {
        UpsertOtherKey(before, key, value, k);
      }
      ok := true;
    }

    /** `get_statistics()`: folds the statistics rows into a dict. */
    method GetStatistics(fault: bool) returns (stats: map<string, Value>)
      ensures !connected || fault ==> stats == DefaultStatistics()
      ensures connected && !fault ==> stats == StatsOf(statistics)
    {
      if !connected || fault {
        return DefaultStatistics();
      }
      stats := map[];
      var i := 0;
      while i < |statistics|
        invariant 0 <= i <= |statistics|
        invariant stats == StatsOf(statistics[..i])
      {
        assert statistics[..i + 1][..i] == statistics[..i];
        stats := stats[statistics[i].key := statistics[i].value];
        i := i + 1;
      }
      assert statistics[..i] == statistics;
    }
  }

  /**
   * Two saves for one phone on a configured store: the lookup by phone and the lookup without
   * one both return the second write; after the delete the phone is not found.
   */
  method SessionLifecycle(phone: string, first: string, second: string, userData: Option<UserData>)
    returns (saved: bool, found: Option<SessionRow>, latest: Option<SessionRow>, deleted: bool, gone: Option<SessionRow>)
    requires phone != ""
    ensures saved && deleted
    ensures found.Some? && found.value.phone == phone && found.value.sessionString == second
    ensures latest.Some? && latest.value.phone == phone && latest.value.sessionString == second
    ensures gone.None?
  {
    var db := new Database(true, [], [], [], 0);
    var _ := db.SaveSession(first, phone, userData, false);
    saved := db.SaveSession(second, phone, userData, false);
    found := db.GetSession(Some(phone), false);
    latest := db.GetSession(None, false);
    deleted := db.DeleteSession(phone, false);
    gone := db.GetSession(Some(phone), false);
  }

  /** Without a client every operation answers with its fixed default and the tables stay as they were. */
  method OfflineStore(sessions: seq<SessionRow>, config: seq<KeyValue>, statistics: seq<KeyValue>, clock: nat,
                      phone: string, sessionString: string, key: string, value: Value)
    returns (saved: bool, found: Option<SessionRow>, deleted: bool, configValue: Value, updated: bool,
             stats: map<string, Value>, unchangedTables: bool)
    requires forall i :: 0 <= i < |sessions| ==> sessions[i].createdAt < clock && sessions[i].updatedAt < clock
    requires UniqueKeys(config)
    ensures !saved && found.None? && !deleted && configValue == Null && !updated
    ensures stats == DefaultStatistics()
    ensures unchangedTables
  {
    var db := new Database(false, sessions, config, statistics, clock);
    saved := db.SaveSession(sessionString, phone, None, false);
    found := db.GetSession(Some(phone), false);
    deleted := db.DeleteSession(phone, false);
    configValue := db.GetConfig(key, false);
    updated := db.UpdateConfig(key, value, false);
    stats := db.GetStatistics(false);
    unchangedTables := db.sessions == sessions && db.config == config && db.statistics == statistics;
  }
}
