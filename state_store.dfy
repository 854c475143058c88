/** The state access layer: a keyed store of user-state rows with a read-through,
    write-through cache in front of it. Cache entries carry the time they were written and
    are served while younger than five minutes. */
module StateStore {
  import opened Models

  /** Seconds a cache entry is served before the store is consulted again. */
  const CacheTtl := 300

  /** Per-column size limits, in kilobytes of serialized JSON. */
  const BookingsMaxKb := 1024
  const HistoryMaxKb := 5120
  const TemperaturesMaxKb := 1024

  datatype BotStateError = DatabaseError | SerializationError | DataTooLarge(size: nat)

  /** The result of an operation that returns nothing on success. */
  datatype Outcome = Pass | Fail(error: BotStateError)

  /** A JSON column as read back from the store: either it decodes into the expected type,
      or it does not. */
  datatype Column<T> = Decoded(value: T) | Malformed

  /** One row of the `user_states` table. The model name is plain text; the session column
      is nullable. */
  datatype Row = Row(
    currentModel: string,
    session: Option<Column<UserSession>>,
    bookings: Column<map<string, Booking>>,
    history: Column<map<ChatId, seq<string>>>,
    temperatures: Column<map<ChatId, real>>)

  /** A cached state and the time it was cached. */
  datatype CacheEntry = CacheEntry(state: UserState, stamp: Timestamp)

  /** The store and the cache together, as one value. */
  datatype Store = Store(rows: map<ChatId, Row>, cache: map<ChatId, CacheEntry>)

  /** The byte length of the serialized JSON of each size-checked column. */
  datatype Sizer = Sizer(
    bookings: map<string, Booking> -> nat,
    history: map<ChatId, seq<string>> -> nat,
    temperatures: map<ChatId, real> -> nat)

  /** Whole seconds elapsed since `stamp`; a stamp in the future has elapsed nothing. */
  function Age(stamp: Timestamp, now: Timestamp): (age: nat)
    ensures now <= stamp ==> age == 0
    ensures stamp <= now ==> stamp + age == now
  {
    if now <= stamp then 0 else now - stamp
  }

  predicate IsFresh(stamp: Timestamp, now: Timestamp)
  {
    Age(stamp, now) < CacheTtl
  }

  /** `validate_data_size`: at most `maxKb` kilobytes pass, a larger size is reported. */
  function ValidateDataSize(size: nat, maxKb: nat): (r: Outcome)
    ensures r.Pass? <==> size <= maxKb * 1024
    ensures r.Fail? ==> r.error == DataTooLarge(size)
  {
    if size > maxKb * 1024 then Fail(DataTooLarge(size)) else Pass
  }

  /** The limit is inclusive: exactly `maxKb` kilobytes pass, one byte more does not. */
  lemma ValidateBoundary(maxKb: nat)
    ensures ValidateDataSize(maxKb * 1024, maxKb) == Pass
    ensures ValidateDataSize(maxKb * 1024 + 1, maxKb) == Fail(DataTooLarge(maxKb * 1024 + 1))
  {
  }

  /** The three size checks of a save, in order; the session column is not checked. */
  function SizeCheck(sz: Sizer, s: UserState): Outcome
  {
    var b := ValidateDataSize(sz.bookings(s.bookings), BookingsMaxKb);
    if b.Fail? then b
    else
      var h := ValidateDataSize(sz.history(s.conversationHistory), HistoryMaxKb);
      if h.Fail? then h
      else ValidateDataSize(sz.temperatures(s.userTemperatures), TemperaturesMaxKb)
  }

  /** A save passes the size checks iff each column is within its limit; otherwise it
      reports the size of the first column, in the order bookings, history, temperatures,
      that exceeds its limit. The session never takes part. */
  lemma SizeCheckLimits(sz: Sizer, s: UserState)
    ensures SizeCheck(sz, s).Pass? <==>
      sz.bookings(s.bookings) <= 1024 * 1024 &&
      sz.history(s.conversationHistory) <= 5120 * 1024 &&
      sz.temperatures(s.userTemperatures) <= 1024 * 1024
    ensures sz.bookings(s.bookings) > 1024 * 1024 ==>
      SizeCheck(sz, s) == Fail(DataTooLarge(sz.bookings(s.bookings)))
    ensures sz.bookings(s.bookings) <= 1024 * 1024 && sz.history(s.conversationHistory) > 5120 * 1024 ==>
      SizeCheck(sz, s) == Fail(DataTooLarge(sz.history(s.conversationHistory)))
    ensures forall session :: SizeCheck(sz, s.(currentSession := session)) == SizeCheck(sz, s)
  {
  }

  /** The row an upsert writes. */
  function EncodeRow(s: UserState): Row
  {
    Row(s.currentModel,
        if s.currentSession.Some? then Some(Decoded(s.currentSession.value)) else None,
        Decoded(s.bookings), Decoded(s.conversationHistory), Decoded(s.userTemperatures))
  }

  predicate WellFormed(r: Row)
  {
    (r.session.Some? ==> r.session.value.Decoded?) &&
    r.bookings.Decoded? && r.history.Decoded? && r.temperatures.Decoded?
  }

  /** Decoding a row for a single-user read: any column that does not decode is a
      serialization error. */
  function DecodeRow(r: Row): (res: Result<UserState, BotStateError>)
    ensures res.Ok? <==> WellFormed(r)
    ensures res.Err? ==> res.error == SerializationError
    ensures res.Ok? ==> res.value.currentModel == r.currentModel
  {
    if !WellFormed(r) then Err(SerializationError)
    else
      Ok(UserState(r.currentModel,
                   if r.session.Some? then Some(r.session.value.value) else None,
                   r.bookings.value, r.history.value, r.temperatures.value))
  }

  /** Decoding a row for the bulk scan: a row whose three map columns do not all decode is
      skipped; a session column that does not decode is read as no session. */
  function ScanRow(r: Row): (res: Option<UserState>)
    ensures res.Some? <==> r.bookings.Decoded? && r.history.Decoded? && r.temperatures.Decoded?
  {
    if r.bookings.Decoded? && r.history.Decoded? && r.temperatures.Decoded? then
      var session := if r.session.Some? && r.session.value.Decoded? then Some(r.session.value.value) else None;
      Some(UserState(r.currentModel, session, r.bookings.value, r.history.value, r.temperatures.value))
    else None
  }

  /** What is written is what is read back, by either reader. */
  lemma EncodeRoundTrip(s: UserState)
    ensures DecodeRow(EncodeRow(s)) == Ok(s)
    ensures ScanRow(EncodeRow(s)) == Some(s)
  {
  }

  /** The two readers agree on every row the single-user reader accepts, and the scan only
      differs by reading a malformed session as none. */
  lemma ScanAgreesWithDecode(r: Row)
    ensures DecodeRow(r).Ok? ==> ScanRow(r) == Some(DecodeRow(r).value)
    ensures ScanRow(r).Some? && DecodeRow(r).Err? ==>
      r.session == Some(Malformed) && ScanRow(r).value.currentSession.None?
  {
  }

  /** `fetch_user_state_from_db`: a database error, the decoded row, or the default state
      when the chat has no row. */
  function Fetch(rows: map<ChatId, Row>, id: ChatId, dbFails: bool): Result<UserState, BotStateError>
  {
    if dbFails then Err(DatabaseError)
    else if id in rows then DecodeRow(rows[id])
    else Ok(DefaultUserState)
  }

  /** `get_user_state`: a fresh cache entry is served as is; otherwise the store is read and
      the result cached with the current time; a failed read yields the default state and
      leaves the cache alone. */
  function GetSpec(st: Store, id: ChatId, now: Timestamp, dbFails: bool): (UserState, Store)
  {
    if id in st.cache && IsFresh(st.cache[id].stamp, now) then (st.cache[id].state, st)
    else
      match Fetch(st.rows, id, dbFails)
      case Ok(s) => (s, st.(cache := st.cache[id := CacheEntry(s, now)]))
      case Err(_) => (DefaultUserState, st)
  }

  /** `save_user_state`: the size checks, then the upsert, then the cache refresh. */
  function SaveSpec(sz: Sizer, st: Store, id: ChatId, s: UserState, now: Timestamp, dbFails: bool): (Outcome, Store)
  {
    var check := SizeCheck(sz, s);
    if check.Fail? then (check, st)
    else if dbFails then (Fail(DatabaseError), st)
    else (Pass, Store(st.rows[id := EncodeRow(s)], st.cache[id := CacheEntry(s, now)]))
  }

  /** `get_all_user_states`: every row that the scan accepts, or nothing when the query
      fails. */
  function ScanAll(rows: map<ChatId, Row>, scanFails: bool): map<ChatId, UserState>
  {
    if scanFails then map[]
    else map id | id in rows && ScanRow(rows[id]).Some? :: ScanRow(rows[id]).value
  }

  /** `cleanup_cache`: the entries younger than the time to live, unchanged. */
  function Evict(cache: map<ChatId, CacheEntry>, now: Timestamp): (kept: map<ChatId, CacheEntry>)
    ensures forall id :: id in kept <==> id in cache && IsFresh(cache[id].stamp, now)
    ensures forall id :: id in kept ==> kept[id] == cache[id]
  {
    map id | id in cache && IsFresh(cache[id].stamp, now) :: cache[id]
  }

  /** A rejected save, for size or for a database error, changes neither store nor cache. */
  lemma SaveFailureChangesNothing(sz: Sizer, st: Store, id: ChatId, s: UserState, now: Timestamp, dbFails: bool)
    ensures SaveSpec(sz, st, id, s, now, dbFails).0.Fail? ==> SaveSpec(sz, st, id, s, now, dbFails).1 == st
    ensures SizeCheck(sz, s).Fail? ==> SaveSpec(sz, st, id, s, now, dbFails).0 == SizeCheck(sz, s)
    ensures SizeCheck(sz, s).Pass? && dbFails ==> SaveSpec(sz, st, id, s, now, dbFails).0 == Fail(DatabaseError)
  {
  }

  /** A successful save writes the row and caches the state with the current time, for that
      chat only. */
  lemma SaveWritesThrough(sz: Sizer, st: Store, id: ChatId, s: UserState, now: Timestamp, dbFails: bool)
    requires SaveSpec(sz, st, id, s, now, dbFails).0.Pass?
    ensures !dbFails && SizeCheck(sz, s).Pass?
    ensures SaveSpec(sz, st, id, s, now, dbFails).1.rows == st.rows[id := EncodeRow(s)]
    ensures SaveSpec(sz, st, id, s, now, dbFails).1.cache == st.cache[id := CacheEntry(s, now)]
  {
  }

  /** Read after write: within the time to live a get returns the saved state and changes
      nothing, whether or not the store would have failed. */
  lemma {:induction false} ReadAfterWrite(sz: Sizer, st: Store, id: ChatId, s: UserState, saved: Timestamp,
                                          now: Timestamp, saveFails: bool, getFails: bool)
    requires SaveSpec(sz, st, id, s, saved, saveFails).0.Pass?
    requires saved <= now < saved + CacheTtl
    ensures var st' := SaveSpec(sz, st, id, s, saved, saveFails).1;
            GetSpec(st', id, now, getFails) == (s, st')
  {
    var st' := SaveSpec(sz, st, id, s, saved, saveFails).1;
    assert st'.cache[id] == CacheEntry(s, saved);
    assert IsFresh(saved, now);
  }

  /** Once the cache entry has aged out, a get reads the saved row back and caches it anew. */
  lemma {:induction false} ReadAfterExpiry(sz: Sizer, st: Store, id: ChatId, s: UserState, saved: Timestamp,
                                           now: Timestamp, saveFails: bool)
    requires SaveSpec(sz, st, id, s, saved, saveFails).0.Pass?
    requires now >= saved + CacheTtl
    ensures var st' := SaveSpec(sz, st, id, s, saved, saveFails).1;
            GetSpec(st', id, now, false) == (s, st'.(cache := st'.cache[id := CacheEntry(s, now)]))
  {
    var st' := SaveSpec(sz, st, id, s, saved, saveFails).1;
    assert st'.rows[id] == EncodeRow(s);
    EncodeRoundTrip(s);
    assert !IsFresh(st'.cache[id].stamp, now);
  }

  /** Without a fresh entry, a get reads the store: a decoded row, or the default state for a
      chat without a row, is returned and cached with the current time. */
  lemma GetReloads(st: Store, id: ChatId, now: Timestamp)
    requires id !in st.cache || !IsFresh(st.cache[id].stamp, now)
    requires id !in st.rows || WellFormed(st.rows[id])
    ensures var v := if id in st.rows then DecodeRow(st.rows[id]).value else DefaultUserState;
            GetSpec(st, id, now, false) == (v, st.(cache := st.cache[id := CacheEntry(v, now)]))
    ensures id !in st.rows ==>
      GetSpec(st, id, now, false).0 == DefaultUserState &&
      GetSpec(st, id, now, false).1.cache[id] == CacheEntry(DefaultUserState, now)
  {
  }

  /** A failed read fails open: the default state, and the cache as it was. */
  lemma GetFailsOpen(st: Store, id: ChatId, now: Timestamp)
    requires id !in st.cache || !IsFresh(st.cache[id].stamp, now)
    ensures GetSpec(st, id, now, true) == (DefaultUserState, st)
    ensures id in st.rows && !WellFormed(st.rows[id]) ==> GetSpec(st, id, now, false) == (DefaultUserState, st)
  {
  }

  /** A get never writes the store, and only ever touches the cache entry of its own chat. */
  lemma GetOnlyCaches(st: Store, id: ChatId, now: Timestamp, dbFails: bool)
    ensures GetSpec(st, id, now, dbFails).1.rows == st.rows
    ensures forall other :: other != id ==>
      (other in GetSpec(st, id, now, dbFails).1.cache <==> other in st.cache)
    ensures forall other :: other != id && other in st.cache ==>
      GetSpec(st, id, now, dbFails).1.cache[other] == st.cache[other]
  {
  }

  /** Two gets at the same time agree: either the first one left the state it returned in
      the cache, so the second is served from there, or the first one failed open. */
  lemma {:induction false} GetTwice(st: Store, id: ChatId, now: Timestamp, first: bool, second: bool)
    ensures var (s1, st1) := GetSpec(st, id, now, first);
            GetSpec(st1, id, now, second) == (s1, st1) || (s1 == DefaultUserState && st1 == st)
  {
    var (s1, st1) := GetSpec(st, id, now, first);
    if id in st1.cache && st1.cache[id] == CacheEntry(s1, now) {
      assert IsFresh(now, now);
    }
  }

  /** Eviction is invisible to a get at the same time, and evicting twice is evicting once. */
  lemma {:induction false} EvictUnobservable(st: Store, id: ChatId, now: Timestamp, dbFails: bool)
    ensures GetSpec(st.(cache := Evict(st.cache, now)), id, now, dbFails).0 == GetSpec(st, id, now, dbFails).0
    ensures Evict(Evict(st.cache, now), now) == Evict(st.cache, now)
  {
    var kept := Evict(st.cache, now);
    if id in st.cache && IsFresh(st.cache[id].stamp, now) {
      assert id in kept && kept[id] == st.cache[id];
    } else {
      assert id !in kept;
    }
  }

  /** The scan returns, for every chat whose row is accepted, that row's state. */
  lemma ScanAllContents(rows: map<ChatId, Row>, id: ChatId)
    ensures id in ScanAll(rows, false) <==> id in rows && ScanRow(rows[id]).Some?
    ensures id in rows && WellFormed(rows[id]) ==> ScanAll(rows, false)[id] == DecodeRow(rows[id]).value
    ensures ScanAll(rows, true) == map[]
  {
    if id in rows && WellFormed(rows[id]) {
      ScanAgreesWithDecode(rows[id]);
    }
  }

  /** A non-empty set of chats has a member. */
  lemma NonEmptyHasMember(ids: set<ChatId>)
    requires ids != {}
    ensures exists id :: id in ids
  {
    if forall id :: id !in ids {
      assert false;
    }
  }

  /** The bot's state handle: the table of rows and the cache in front of it. */
  class BotState {
    const sizer: Sizer
    var rows: map<ChatId, Row>
    var cache: map<ChatId, CacheEntry>

    function View(): Store
      reads this
    {
      Store(rows, cache)
    }

    /** `BotState::new`: an empty cache over the given table. */
    constructor(sizer: Sizer, rows: map<ChatId, Row>)
      ensures this.sizer == sizer && View() == Store(rows, map[])
    {
      this.sizer := sizer;
      this.rows := rows;
      this.cache := map[];
    }

    method SaveUserState(chatId: ChatId, state: UserState, now: Timestamp, dbFails: bool) returns (r: Outcome)
      modifies this
      ensures (r, View()) == SaveSpec(sizer, old(View()), chatId, state, now, dbFails)
    {
      r := ValidateDataSize(sizer.bookings(state.bookings), BookingsMaxKb);
      if r.Fail? { return; }
      r := ValidateDataSize(sizer.history(state.conversationHistory), HistoryMaxKb);
      if r.Fail? { return; }
      r := ValidateDataSize(sizer.temperatures(state.userTemperatures), TemperaturesMaxKb);
      if r.Fail? { return; }
      if dbFails {
        r := Fail(DatabaseError);
        return;
      }
      rows := rows[chatId := EncodeRow(state)];
      cache := cache[chatId := CacheEntry(state, now)];
    }

    method FetchUserStateFromDb(chatId: ChatId, dbFails: bool) returns (r: Result<UserState, BotStateError>)
      ensures r == Fetch(rows, chatId, dbFails)
      ensures !dbFails && chatId !in rows ==> r == Ok(DefaultUserState)
      ensures r.Err? <==> dbFails || (chatId in rows && !WellFormed(rows[chatId]))
    {
      if dbFails {
        return Err(DatabaseError);
      }
      if chatId in rows {
        r := DecodeRow(rows[chatId]);
      } else {
        r := Ok(DefaultUserState);
      }
    }

    method GetUserState(chatId: ChatId, now: Timestamp, dbFails: bool) returns (s: UserState)
      modifies this`cache
      ensures (s, View()) == GetSpec(old(View()), chatId, now, dbFails)
    {
      if chatId in cache && IsFresh(cache[chatId].stamp, now) {
        return cache[chatId].state;
      }
      var fetched := FetchUserStateFromDb(chatId, dbFails);
      match fetched {
        case Ok(v) =>
          cache := cache[chatId := CacheEntry(v, now)];
          s := v;
        case Err(_) =>
          s := DefaultUserState;
      }
    }

    method GetAllUserStates(scanFails: bool) returns (states: map<ChatId, UserState>)
      ensures states == ScanAll(rows, scanFails)
    {
      states := map[];
      if scanFails {
        return;
      }
      var todo := rows.Keys;
      while todo != {}
        invariant todo <= rows.Keys
        invariant states == map id | id in rows && id !in todo && ScanRow(rows[id]).Some? :: ScanRow(rows[id]).value
        decreases todo
      {
        NonEmptyHasMember(todo);
        var id :| id in todo;
        var scanned := ScanRow(rows[id]);
        if scanned.Some? {
          states := states[id := scanned.value];
        }
        todo := todo - {id};
      }
    }

    method CleanupCache(now: Timestamp)
      modifies this`cache
      ensures cache == Evict(old(cache), now)
    {
      cache := Evict(cache, now);
    }
  }
}
