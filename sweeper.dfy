/** One tick of the session sweeper: every stored user whose session is active and past its
    paid window is saved back with that session deactivated. Nothing else is touched. */
module Sweeper {
  import opened Models
  import opened StateStore

  /** The tick's condition: an active session whose paid window has ended strictly before
      `now`. */
  predicate ShouldExpire(s: UserState, now: Timestamp)
  {
    s.currentSession.Some? && s.currentSession.value.isActive && now > s.currentSession.value.paidUntil
  }

  /** The state with its session, if any, deactivated; nothing else changes. */
  function Deactivate(s: UserState): (r: UserState)
    ensures r.currentSession.Some? <==> s.currentSession.Some?
    ensures s.currentSession.Some? ==> r.currentSession.value == s.currentSession.value.(isActive := false)
    ensures r.(currentSession := s.currentSession) == s
  {
    match s.currentSession
    case Some(sess) => s.(currentSession := Some(sess.(isActive := false)))
    case None => s
  }

  /** The chats among `ids` whose save goes through: their session expired, their state is
      within the size limits, and the store accepts the write. */
  function Written(sz: Sizer, states: map<ChatId, UserState>, ids: set<ChatId>, now: Timestamp,
                   saveFails: set<ChatId>): (w: set<ChatId>)
    ensures w <= ids && w <= states.Keys
  {
    set id | id in ids && id in states && ShouldExpire(states[id], now) &&
             SizeCheck(sz, Deactivate(states[id])).Pass? && id !in saveFails
  }

  /** The store after the deactivated states of `w` have been written through. */
  function ApplyWrites(st: Store, states: map<ChatId, UserState>, w: set<ChatId>, now: Timestamp): Store
    requires w <= states.Keys
  {
    Store(map id | id in st.rows.Keys + w :: if id in w then EncodeRow(Deactivate(states[id])) else st.rows[id],
          map id | id in st.cache.Keys + w :: if id in w then CacheEntry(Deactivate(states[id]), now) else st.cache[id])
  }

  /** One tick at time `now`: scan every stored user, and write back the expired ones. */
  function TickSpec(sz: Sizer, st: Store, now: Timestamp, scanFails: bool, saveFails: set<ChatId>): Store
  {
    var states := ScanAll(st.rows, scanFails);
    ApplyWrites(st, states, Written(sz, states, states.Keys, now, saveFails), now)
  }

  /** What the tick does to one chat: a chat that is written gets its scanned state,
      deactivated, in both store and cache; every other chat keeps its row and its cache
      entry. */
  lemma {:induction false} TickEffect(sz: Sizer, st: Store, now: Timestamp, scanFails: bool, saveFails: set<ChatId>, id: ChatId)
    ensures var states := ScanAll(st.rows, scanFails);
            var st' := TickSpec(sz, st, now, scanFails, saveFails);
            st'.rows.Keys == st.rows.Keys &&
            (id in Written(sz, states, states.Keys, now, saveFails) ==>
               ShouldExpire(states[id], now) && id !in saveFails &&
               st'.rows[id] == EncodeRow(Deactivate(states[id])) &&
               st'.cache[id] == CacheEntry(Deactivate(states[id]), now)) &&
            (id !in Written(sz, states, states.Keys, now, saveFails) ==>
               (id in st'.rows <==> id in st.rows) && (id in st.rows ==> st'.rows[id] == st.rows[id]) &&
               (id in st'.cache <==> id in st.cache) && (id in st.cache ==> st'.cache[id] == st.cache[id]))
  {
    var states := ScanAll(st.rows, scanFails);
    assert states.Keys <= st.rows.Keys by {
      forall k | k in states ensures k in st.rows {
        ScanAllContents(st.rows, k);
      }
    }
  }

  /** A chat without a session, with an inactive session, or with a session whose window
      has not ended is not written. */
  lemma UnexpiredNotWritten(sz: Sizer, st: Store, now: Timestamp, scanFails: bool, saveFails: set<ChatId>, id: ChatId)
    requires id in st.rows && ScanRow(st.rows[id]).Some? && !ShouldExpire(ScanRow(st.rows[id]).value, now)
    ensures var st' := TickSpec(sz, st, now, scanFails, saveFails);
            st'.rows[id] == st.rows[id] && (id in st'.cache <==> id in st.cache) &&
            (id in st.cache ==> st'.cache[id] == st.cache[id])
  {
    TickEffect(sz, st, now, scanFails, saveFails, id);
    ScanAllContents(st.rows, id);
  }

  /** The tick only deactivates: no stored session is active after the tick unless it was
      active before. Scheduled sessions, which are stored inactive, stay inactive. */
  lemma {:induction false} TickNeverActivates(sz: Sizer, st: Store, now: Timestamp, scanFails: bool, saveFails: set<ChatId>, id: ChatId)
    requires id in st.rows
    ensures var st' := TickSpec(sz, st, now, scanFails, saveFails);
            var after := ScanRow(st'.rows[id]);
            after.Some? && after.value.currentSession.Some? && after.value.currentSession.value.isActive ==>
              st'.rows[id] == st.rows[id]
  {
    TickEffect(sz, st, now, scanFails, saveFails, id);
    var states := ScanAll(st.rows, scanFails);
    if id in Written(sz, states, states.Keys, now, saveFails) {
      EncodeRoundTrip(Deactivate(states[id]));
    }
  }

  /** A failed save for some chats does not keep any other chat from being written: for a
      chat whose save does not fail, the tick has the same effect as a tick without
      failures. */
  lemma {:induction false} FailuresAreIsolated(sz: Sizer, st: Store, now: Timestamp, saveFails: set<ChatId>, id: ChatId)
    requires id !in saveFails
    ensures var st1 := TickSpec(sz, st, now, false, saveFails);
            var st2 := TickSpec(sz, st, now, false, {});
            (id in st1.rows <==> id in st2.rows) && (id in st1.rows ==> st1.rows[id] == st2.rows[id]) &&
            (id in st1.cache <==> id in st2.cache) && (id in st1.cache ==> st1.cache[id] == st2.cache[id])
  {
    TickEffect(sz, st, now, false, saveFails, id);
    TickEffect(sz, st, now, false, {}, id);
  }

  /** A second tick at the same time, with no failures, changes nothing more. */
  lemma {:induction false} TickIdempotent(sz: Sizer, st: Store, now: Timestamp)
    ensures var st1 := TickSpec(sz, st, now, false, {});
            TickSpec(sz, st1, now, false, {}) == st1
  {
    var st1 := TickSpec(sz, st, now, false, {});
    var st2 := TickSpec(sz, st1, now, false, {});
    var states1 := ScanAll(st1.rows, false);
    var w1 := Written(sz, states1, states1.Keys, now, {});
    assert w1 == {} by {
      forall id | id in states1 ensures id !in w1 {
        TickEffect(sz, st, now, false, {}, id);
        ScanAllContents(st1.rows, id);
        var states := ScanAll(st.rows, false);
        ScanAllContents(st.rows, id);
        if id in Written(sz, states, states.Keys, now, {}) {
          EncodeRoundTrip(Deactivate(states[id]));
          assert states1[id] == Deactivate(states[id]);
        } else {
          assert states1[id] == states[id];
        }
      }
    }
    assert st2.rows == st1.rows;
    assert st2.cache == st1.cache;
  }

  /** Writing one more chat is the same as adding it to the written set. */
  lemma {:induction false} ApplyOneMore(st: Store, states: map<ChatId, UserState>, w: set<ChatId>, id: ChatId, now: Timestamp)
    requires w <= states.Keys && id in states
    ensures var st1 := ApplyWrites(st, states, w, now);
            ApplyWrites(st, states, w + {id}, now) ==
              Store(st1.rows[id := EncodeRow(Deactivate(states[id]))], st1.cache[id := CacheEntry(Deactivate(states[id]), now)])
  {
    var st1 := ApplyWrites(st, states, w, now);
    var st2 := ApplyWrites(st, states, w + {id}, now);
    assert st2.rows == st1.rows[id := EncodeRow(Deactivate(states[id]))];
    assert st2.cache == st1.cache[id := CacheEntry(Deactivate(states[id]), now)];
  }

  /** Considering one more chat adds it to the written set exactly when its save goes
      through. */
  lemma WrittenGrows(sz: Sizer, states: map<ChatId, UserState>, done: set<ChatId>, id: ChatId, now: Timestamp,
                     saveFails: set<ChatId>)
    requires id in states
    ensures Written(sz, states, done + {id}, now, saveFails) ==
              if ShouldExpire(states[id], now) && SizeCheck(sz, Deactivate(states[id])).Pass? && id !in saveFails
              then Written(sz, states, done, now, saveFails) + {id}
              else Written(sz, states, done, now, saveFails)
  {
  }

  /** The body of one iteration of `check_sessions_task`. `saveFails` are the chats whose
      write the store rejects. */
  method CheckSessionsTick(bs: BotState, now: Timestamp, scanFails: bool, saveFails: set<ChatId>)
    modifies bs
    ensures bs.View() == TickSpec(bs.sizer, old(bs.View()), now, scanFails, saveFails)
  {
    var states := bs.GetAllUserStates(scanFails);
    ghost var st0 := bs.View();
    var todo := states.Keys;
    while todo != {}
      invariant todo <= states.Keys
      invariant states == ScanAll(st0.rows, scanFails)
      invariant bs.View() == ApplyWrites(st0, states, Written(bs.sizer, states, states.Keys - todo, now, saveFails), now)
      decreases todo
    {
      NonEmptyHasMember(todo);
      var id :| id in todo;
      var done := states.Keys - todo;
      var userState := states[id];
      assert states.Keys - (todo - {id}) == done + {id};
      WrittenGrows(bs.sizer, states, done, id, now, saveFails);
      if userState.currentSession.Some? && userState.currentSession.value.isActive && now > userState.currentSession.value.paidUntil {
        var updated := Deactivate(userState);
        var r := bs.SaveUserState(id, updated, now, id in saveFails);
        ApplyOneMore(st0, states, Written(bs.sizer, states, done, now, saveFails), id, now);
      }
      todo := todo - {id};
    }
    assert states.Keys - todo == states.Keys;
  }
}
