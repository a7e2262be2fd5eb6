// The session table, and what it stands for: the history of logins, logouts
// and password changes.
module Sessions {

  const DAY := 86400

  // Rows are keyed by the hash of the token.
  datatype Row = Row(csrf: string, expiresAt: int)

  type Table = map<string, Row>

  datatype Call =
    | Login(token: string, csrf: string, purgeAt: int, at: int)
    | Logout(token: string, at: int)
    | ChangePassword(token: string, correct: bool, at: int)

  // What a committed call meant for sessions.
  datatype Event = Began(token: string, at: int) | Ended(token: string) | AllEnded

  predicate Authenticated(table: Table, token: string, now: int) {
    token in table && table[token].expiresAt > now
  }

  function Purged(table: Table, now: int): Table {
    map t | t in table && !(table[t].expiresAt <= now) :: table[t]
  }

  // The table after a call, and the event that it committed, if any.
  function Handle(table: Table, call: Call): (Table, seq<Event>) {
    match call
    case Login(token, csrf, purgeAt, at) =>
      var purged := Purged(table, purgeAt);
      if token in purged then (table, [])
      else (purged[token := Row(csrf, at + DAY)], [Began(token, at)])
    case Logout(token, at) =>
      if !Authenticated(table, token, at) then (table, []) else (table - {token}, [Ended(token)])
    case ChangePassword(token, correct, at) =>
      if !Authenticated(table, token, at) || !correct then (table, []) else (map[], [AllEnded])
  }

  class SessionTable {
    var rows: Table

    constructor ()
      ensures rows == map[]
    {
      rows := map[];
    }

    method Authenticate(token: string, now: int) returns (ok: bool)
      ensures ok == Authenticated(rows, token, now)
    {
      ok := false;
      if token in rows {
        ok := rows[token].expiresAt > now;
      }
    }

    method Begin(token: string, csrf: string, purgeAt: int, at: int) returns (ok: bool)
      modifies this`rows
      ensures rows == Handle(old(rows), Login(token, csrf, purgeAt, at)).0
      ensures ok <==> token !in Purged(old(rows), purgeAt)
    {
      var tx := rows;
      tx := map t | t in tx && !(tx[t].expiresAt <= purgeAt) :: tx[t];
      if token in tx {
        return false;
      }
      tx := tx[token := Row(csrf, at + DAY)];
      rows := tx;
      ok := true;
    }

    method End(token: string, at: int) returns (ok: bool)
      modifies this`rows
      ensures rows == Handle(old(rows), Logout(token, at)).0
      ensures ok == Authenticated(old(rows), token, at)
    {
      ok := Authenticate(token, at);
      if ok {
        rows := rows - {token};
      }
    }

    method EndAll(token: string, correct: bool, at: int) returns (ok: bool)
      modifies this`rows
      ensures rows == Handle(old(rows), ChangePassword(token, correct, at)).0
      ensures ok == (Authenticated(old(rows), token, at) && correct)
    {
      ok := Authenticate(token, at);
      ok := ok && correct;
      if ok {
        rows := map[];
      }
    }
  }

  // ---------- Runs ----------

  function TableAfter(calls: seq<Call>): Table
    decreases |calls|
  {
    if calls == [] then map[] else Handle(TableAfter(calls[..|calls| - 1]), calls[|calls| - 1]).0
  }

  function HistoryOf(calls: seq<Call>): seq<Event>
    decreases |calls|
  {
    if calls == [] then []
    else
      var before := calls[..|calls| - 1];
      HistoryOf(before) + Handle(TableAfter(before), calls[|calls| - 1]).1
  }

  // The clock does not run backwards.
  predicate Chronological(calls: seq<Call>) {
    && (forall i :: 0 <= i < |calls| && calls[i].Login? ==> calls[i].purgeAt <= calls[i].at)
    && (forall i, j :: 0 <= i < j < |calls| ==>
          calls[i].at <= if calls[j].Login? then calls[j].purgeAt else calls[j].at)
  }

  predicate Before(calls: seq<Call>, now: int) {
    forall i :: 0 <= i < |calls| ==> calls[i].at <= now
  }

  // ---------- What being logged in means ----------

  // The i-th event began a session of this token that nothing since has ended.
  predicate Open(history: seq<Event>, token: string, i: int) {
    && 0 <= i < |history| && history[i].Began? && history[i].token == token
    && forall j :: i < j < |history| ==> history[j] != Ended(token) && history[j] != AllEnded
  }

  ghost predicate LoggedIn(history: seq<Event>, token: string, now: int) {
    exists i :: Open(history, token, i) && now < history[i].at + DAY
  }

  // ---------- The table refines the history ----------

  // Every row has its login, and every open login has its row or has expired.
  ghost predicate Refines(table: Table, history: seq<Event>, clock: int) {
    && (forall t :: t in table ==> exists i :: Open(history, t, i) && table[t].expiresAt == history[i].at + DAY)
    && (forall t, i :: Open(history, t, i) ==>
          (t in table && table[t].expiresAt == history[i].at + DAY) || history[i].at + DAY <= clock)
  }

  lemma OpenBefore(history: seq<Event>, e: Event, token: string, i: int)
    ensures i < |history| ==>
              (Open(history + [e], token, i) <==> Open(history, token, i) && e != Ended(token) && e != AllEnded)
    ensures Open(history + [e], token, |history|) <==> e.Began? && e.token == token
  {
    var h := history + [e];
    if i < |history| && Open(h, token, i) {
      assert h[i] == history[i];
      assert h[|history|] == e;
      forall j | i < j < |history| ensures history[j] != Ended(token) && history[j] != AllEnded {
        assert h[j] == history[j];
      }
    }
  }

  lemma LoginRefines(table: Table, history: seq<Event>, call: Call)
    requires call.Login? && call.purgeAt <= call.at && Refines(table, history, call.purgeAt)
    requires call.token !in Purged(table, call.purgeAt)
    ensures Refines(Handle(table, call).0, history + [Began(call.token, call.at)], call.at)
  {
    var e := Began(call.token, call.at);
    var h', t' := history + [e], Handle(table, call).0;
    forall t | t in t' ensures exists i :: Open(h', t, i) && t'[t].expiresAt == h'[i].at + DAY {
      if t == call.token {
        OpenBefore(history, e, t, |history|);
        assert Open(h', t, |history|);
      } else {
        var i :| Open(history, t, i) && table[t].expiresAt == history[i].at + DAY;
        OpenBefore(history, e, t, i);
        assert Open(h', t, i);
      }
    }
    forall t, i | Open(h', t, i)
      ensures (t in t' && t'[t].expiresAt == h'[i].at + DAY) || h'[i].at + DAY <= call.at
    {
      OpenBefore(history, e, t, i);
      if i < |history| {
        assert Open(history, t, i);
      }
    }
  }

  lemma EndRefines(table: Table, history: seq<Event>, e: Event, clock: int, later: int)
    requires Refines(table, history, clock) && clock <= later && (e.Ended? || e.AllEnded?)
    ensures Refines(if e.Ended? then table - {e.token} else map[], history + [e], later)
  {
    var h' := history + [e];
    var t': Table := if e.Ended? then table - {e.token} else map[];
    forall t | t in t' ensures exists i :: Open(h', t, i) && t'[t].expiresAt == h'[i].at + DAY {
      var i :| Open(history, t, i) && table[t].expiresAt == history[i].at + DAY;
      OpenBefore(history, e, t, i);
      assert Open(h', t, i);
    }
    forall t, i | Open(h', t, i)
      ensures (t in t' && t'[t].expiresAt == h'[i].at + DAY) || h'[i].at + DAY <= later
    {
      OpenBefore(history, e, t, i);
      assert Open(history, t, i);
    }
  }

  lemma {:induction false} RunRefines(calls: seq<Call>, clock: int)
    requires Chronological(calls) && Before(calls, clock)
    ensures Refines(TableAfter(calls), HistoryOf(calls), clock)
    decreases |calls|
  {
    if calls == [] {
    } else {
      var before, call := calls[..|calls| - 1], calls[|calls| - 1];
      var start := if call.Login? then call.purgeAt else call.at;
      RunRefines(before, start);
      StepRefines(TableAfter(before), HistoryOf(before), call, start, clock);
    }
  }

  lemma StepRefines(table: Table, history: seq<Event>, call: Call, start: int, clock: int)
    requires Refines(table, history, start) && start <= call.at <= clock
    requires call.Login? ==> start == call.purgeAt
    ensures Refines(Handle(table, call).0, history + Handle(table, call).1, clock)
  {
    var (table', events) := Handle(table, call);
    if events == [] {
      assert history + events == history;
    } else {
      match call
      case Login(_, _, _, _) => LoginRefines(table, history, call);
      case Logout(token, at) => EndRefines(table, history, Ended(token), start, at);
      case ChangePassword(_, _, at) => EndRefines(table, history, AllEnded, start, at);
    }
  }

  // At every time since the last call, a token authenticates exactly when its
  // login committed less than a day ago and neither a logout of that token nor
  // a password change committed after it.  That logins purge expired rows
  // cannot be observed.
  lemma AuthenticatedIffLoggedIn(calls: seq<Call>, token: string, now: int)
    requires Chronological(calls) && Before(calls, now)
    ensures Authenticated(TableAfter(calls), token, now) <==> LoggedIn(HistoryOf(calls), token, now)
  {
    RunRefines(calls, now);
    var table, history := TableAfter(calls), HistoryOf(calls);
    if token in table {
      var i :| Open(history, token, i) && table[token].expiresAt == history[i].at + DAY;
    }
  }
}
