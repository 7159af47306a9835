/**
 The PEP's session table, keyed by SPI, against a map of open sessions keyed as the Verifier keys them.  What
 is remembered of a session is a parameter.
 */
module SessionTable {
  import opened Wrappers
  import opened Protocol
  import opened Text
  import opened Attest
  import opened History
  import opened Policy
  import opened Pep

  /** The key of the events a session's transactions append. */
  function KeyOf(s: Session): string {
    Join(KeyParts(s.clientPubKey, s.serviceID, s.clientOuterIP, s.clientInnerIP, s.clientInSPI, s.pepInSPI, s.reqID))
  }

  lemma SessionEventKey(cfg: PepConfig, h: HistoryState, now: int, eventType: string, s: Session,
                        meta: Option<Metadata>)
    ensures SessionKey(NewEvent(cfg.p, h, now, eventType, Some(s), meta)) == KeyOf(s)
    ensures NewEvent(cfg.p, h, now, eventType, Some(s), meta).eventType == eventType
  {
    hide Join, Decimal, HashEvent;
  }

  /** What the event records besides the observer's report does not change the PEP's verdict on it. */
  lemma RecordedProfile(cfg: PepConfig, s: Session, given: Metadata, outcome: string)
    requires outcome == "applied" || outcome == "deleted"
    ensures MeetsLocalProfile(cfg, SessionMetadata(s, given), outcome) <==> MeetsLocalProfile(cfg, given, outcome)
  {
    hide ToLower;
    forall key | key != "expires_at" && key != "aead"
      ensures Entry(SessionMetadata(s, given), key) == Entry(given, key)
    {
    }
  }

  /** The table, keyed by SPI, and the open sessions, keyed by session key, are the same sessions. */
  ghost predicate TableMatches(facts: Session -> Tracked, sessions: map<string, Session>, open: ActiveMap) {
    && (forall id :: id in sessions ==>
        sessions[id].pepInSPI == id && Lookup(open, KeyOf(sessions[id])) == Some(facts(sessions[id])))
    && (forall k :: k in open ==> exists id :: id in sessions && KeyOf(sessions[id]) == k)
    && (forall a, b :: a in sessions && b in sessions && KeyOf(sessions[a]) == KeyOf(sessions[b]) ==> a == b)
  }

  lemma StoredUnderSPI(facts: Session -> Tracked, sessions: map<string, Session>, open: ActiveMap, id: string)
    requires TableMatches(facts, sessions, open) && id in sessions
    ensures sessions[id].pepInSPI == id
  {
  }

  /** Neither the SPI nor the key of the session is another live session's. */
  ghost predicate Unclaimed(sessions: map<string, Session>, s: Session) {
    && (s.pepInSPI in sessions ==> KeyOf(sessions[s.pepInSPI]) == KeyOf(s))
    && (forall id :: id in sessions && id != s.pepInSPI ==> KeyOf(sessions[id]) != KeyOf(s))
  }

  ghost predicate Fresh(sessions: map<string, Session>, s: Session) {
    s.pepInSPI !in sessions && forall id :: id in sessions ==> KeyOf(sessions[id]) != KeyOf(s)
  }

  predicate Tabled(st: PepState, s: Session) {
    s.pepInSPI in st.sessions && st.sessions[s.pepInSPI] == s
  }

  /** Storing an activated session keeps table and log together exactly if its SPI and key are not taken by another. */
  lemma ActivationKeepsTable(facts: Session -> Tracked, sessions: map<string, Session>, open: ActiveMap, s: Session)
    requires TableMatches(facts, sessions, open)
    ensures TableMatches(facts, sessions[s.pepInSPI := s], open[KeyOf(s) := facts(s)]) <==> Unclaimed(sessions, s)
  {
    hide KeyOf;
    var sessions', open' := sessions[s.pepInSPI := s], open[KeyOf(s) := facts(s)];
    if s.pepInSPI in sessions && KeyOf(sessions[s.pepInSPI]) != KeyOf(s) {
      var k := KeyOf(sessions[s.pepInSPI]);
      assert k in open';
      assert forall id :: id in sessions' && KeyOf(sessions'[id]) == k ==> id in sessions && id == s.pepInSPI;
      assert !TableMatches(facts, sessions', open');
    } else if exists id :: id in sessions && id != s.pepInSPI && KeyOf(sessions[id]) == KeyOf(s) {
      var id :| id in sessions && id != s.pepInSPI && KeyOf(sessions[id]) == KeyOf(s);
      assert sessions'[id] == sessions[id] && sessions'[s.pepInSPI] == s;
    } else {
      forall k | k in open' ensures exists id :: id in sessions' && KeyOf(sessions'[id]) == k {
        if k == KeyOf(s) {
          assert sessions'[s.pepInSPI] == s;
        } else {
          var id :| id in sessions && KeyOf(sessions[id]) == k;
          assert sessions'[id] == sessions[id];
        }
      }
    }
  }

  lemma DeletionKeepsTable(facts: Session -> Tracked, sessions: map<string, Session>, open: ActiveMap, id: string)
    requires TableMatches(facts, sessions, open) && id in sessions
    ensures TableMatches(facts, sessions - {id}, open - {KeyOf(sessions[id])})
  {
    hide KeyOf;
    var sessions', open' := sessions - {id}, open - {KeyOf(sessions[id])};
    forall k | k in open' ensures exists i :: i in sessions' && KeyOf(sessions'[i]) == k {
      var i :| i in sessions && KeyOf(sessions[i]) == k;
      assert sessions'[i] == sessions[i];
    }
  }
}
