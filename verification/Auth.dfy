/** Wallet sign-in: single-use challenges and the sessions they buy. Instants are in milliseconds. */
module Auth {
  import opened Wrappers
  import opened Json

  const CHALLENGE_TTL := 5 * 60 * 1000
  const FARMER_ROLES := ["farmer"]

  /** Address syntax, signature check and token hash, as the libraries provide them. */
  datatype Keys = Keys(validAddress: string -> bool, verifies: (string, string, string) -> bool, hash: string -> string)

  datatype ChallengeRow = ChallengeRow(domain: string, address: string, issuedAt: int, expiresAt: int, used: bool)

  datatype SessionRow = SessionRow(address: string, roles: seq<string>, expiresAt: int)

  datatype State = State(challenges: map<string, ChallengeRow>, sessions: map<string, SessionRow>)

  datatype Challenge = Challenge(domain: string, nonce: string, issuedAt: int, address: string)

  datatype VerifyRequest = VerifyRequest(address: string, domain: string, nonce: string, timestamp: string,
                                         signature: string)

  datatype Session = Session(token: string, address: string, roles: seq<string>, expiresAt: int)

  datatype Error = BadRequest | Conflict | Unauthorized | Database | Internal

  // In short pieces, which keeps GreetingIsOneLine cheap.
  const GREETING := " wants you " + "to sign in " + "with your " + "Stellar " + "account:"

  /** The exact text the wallet signs. */
  function Sep40Message(domain: string, address: string, nonce: string, timestamp: string): string {
    domain + GREETING + "\n" + address +
    "\n\nNonce: " + nonce + "\nIssued At: " + timestamp + "\n"
  }

  predicate OneLine(s: string) { '\n' !in s }

  lemma FirstLine(a: string, x: string, b: string, y: string)
    requires OneLine(a) && OneLine(b)
    requires a + "\n" + x == b + "\n" + y
    ensures a == b && x == y
  {
    var whole := a + "\n" + x;
    assert whole[|a|] == '\n' && whole[|b|] == '\n';
    assert forall i :: 0 <= i < |a| ==> whole[i] == a[i] != '\n';
    assert forall i :: 0 <= i < |b| ==> whole[i] == b[i] != '\n';
    assert a == whole[..|a|] && b == whole[..|b|];
    assert x == whole[|a| + 1..] && y == whole[|b| + 1..];
  }

  lemma SameTail(fixed: string, x: string, y: string)
    requires fixed + x == fixed + y
    ensures x == y
  {
    assert x == (fixed + x)[|fixed|..] && y == (fixed + y)[|fixed|..];
  }

  lemma SameHead(x: string, y: string, fixed: string)
    requires x + fixed == y + fixed
    ensures x == y
  {
    assert |x + fixed| == |y + fixed|;
    assert x == (x + fixed)[..|x|] && y == (y + fixed)[..|y|];
  }

  /** The message after its first line. */
  function Body(address: string, nonce: string, timestamp: string): string {
    address + "\n" + ("\nNonce: " + (nonce + "\n" + ("Issued At: " + (timestamp + "\n"))))
  }

  lemma GreetingIsOneLine()
    ensures OneLine(GREETING)
  {
    assert OneLine(" wants you ") && OneLine("to sign in ") && OneLine("with your ");
    assert OneLine("Stellar ") && OneLine("account:");
  }

  lemma MessageLines(domain: string, address: string, nonce: string, timestamp: string)
    ensures
      Sep40Message(domain, address, nonce, timestamp) == (domain + GREETING) + "\n" + Body(address, nonce, timestamp)
  {
    assert "\n\nNonce: " == "\n" + "\nNonce: ";
    assert "\nIssued At: " == "\n" + "Issued At: ";
  }

  lemma BodyInjective(a: string, n: string, t: string, a': string, n': string, t': string)
    requires OneLine(a) && OneLine(n) && OneLine(a') && OneLine(n')
    requires Body(a, n, t) == Body(a', n', t')
    ensures a == a' && n == n' && t == t'
  {
    var r, r' := n + "\n" + ("Issued At: " + (t + "\n")), n' + "\n" + ("Issued At: " + (t' + "\n"));
    FirstLine(a, "\nNonce: " + r, a', "\nNonce: " + r');
    SameTail("\nNonce: ", r, r');
    FirstLine(n, "Issued At: " + (t + "\n"), n', "Issued At: " + (t' + "\n"));
    SameTail("Issued At: ", t + "\n", t' + "\n");
    SameHead(t, t', "\n");
  }

  /** One message names one domain, address, nonce and timestamp; the timestamp may be any text. */
  lemma MessageInjective(d: string, a: string, n: string, t: string, d': string, a': string, n': string, t': string)
    requires OneLine(d) && OneLine(a) && OneLine(n)
    requires OneLine(d') && OneLine(a') && OneLine(n')
    ensures Sep40Message(d, a, n, t) == Sep40Message(d', a', n', t') <==> d == d' && a == a' && n == n' && t == t'
  {
    if Sep40Message(d, a, n, t) == Sep40Message(d', a', n', t') {
      MessageLines(d, a, n, t);
      MessageLines(d', a', n', t');
      GreetingIsOneLine();
      FirstLine(d + GREETING, Body(a, n, t), d' + GREETING, Body(a', n', t'));
      SameHead(d, d', GREETING);
      BodyInjective(a, n, t, a', n', t');
    }
  }

  /** The hypothesis is needed: a nonce with a newline can pass text to the timestamp. */
  lemma NewlineCollides(d: string, a: string)
    ensures Sep40Message(d, a, "1\nIssued At: 2", "3") == Sep40Message(d, a, "1", "2\nIssued At: 3")
  {
    var front := d + GREETING + "\n" + a + "\n\nNonce: ";
    assert Sep40Message(d, a, "1\nIssued At: 2", "3") == front + ("1\nIssued At: 2" + "\nIssued At: " + "3" + "\n");
    assert Sep40Message(d, a, "1", "2\nIssued At: 3") == front + ("1" + "\nIssued At: " + "2\nIssued At: 3" + "\n");
  }

  function Issue(keys: Keys, s: State, domain: string, address: string, nonce: string, now: int)
    : (State, Result<Challenge, Error>)
  {
    if !keys.validAddress(address) then (s, Err(BadRequest))
    else if nonce in s.challenges then (s, Err(Database))
    else
      (s.(challenges := s.challenges[nonce := ChallengeRow(domain, address, now, now + CHALLENGE_TTL, false)]),
       Ok(Challenge(domain, nonce, now, address)))
  }

  /** Why a verify request is turned down before anything is written; None when it is accepted. */
  function Refusal(keys: Keys, s: State, domain: string, req: VerifyRequest, now: int): Option<Error> {
    if !keys.validAddress(req.address) then Some(BadRequest)
    else if req.nonce !in s.challenges then Some(Conflict)
    else
      var row := s.challenges[req.nonce];
      if row.address != req.address || row.domain != req.domain then Some(Conflict)
      else if row.used || row.expiresAt <= now then Some(Conflict)
      else if row.domain != domain then Some(BadRequest)
      else
        var message := Sep40Message(req.domain, req.address, req.nonce, req.timestamp);
        if !keys.verifies(req.address, req.signature, message) then Some(Unauthorized) else None
  }

  /** `now` is read at the check, `later` when the session is made. */
  function Verify(keys: Keys, s: State, domain: string, ttl: nat, req: VerifyRequest, now: int, token: string,
                  later: int)
    : (State, Result<Session, Error>)
  {
    match Refusal(keys, s, domain, req, now)
    case Some(error) => (s, Err(error))
    case None =>
      var spent := s.(challenges := s.challenges[req.nonce := s.challenges[req.nonce].(used := true)]);
      if !FitsI64(ttl) then (spent, Err(Internal))
      else if keys.hash(token) in s.sessions then (spent, Err(Database))
      else
        (spent.(sessions := s.sessions[keys.hash(token) := SessionRow(req.address, FARMER_ROLES, later + ttl)]),
         Ok(Session(token, req.address, FARMER_ROLES, later + ttl)))
  }

  function SessionByToken(keys: Keys, s: State, token: string, now: int): Result<SessionRow, Error> {
    if keys.hash(token) !in s.sessions then Err(Unauthorized)
    else
      var row := s.sessions[keys.hash(token)];
      if row.expiresAt <= now then Err(Unauthorized) else Ok(row)
  }

  datatype Call =
    | Ask(domain: string, address: string, nonce: string, now: int)
    | Prove(domain: string, ttl: nat, req: VerifyRequest, now: int, token: string, later: int)

  function Do(keys: Keys, s: State, call: Call): State {
    match call
    case Ask(domain, address, nonce, now) => Issue(keys, s, domain, address, nonce, now).0
    case Prove(domain, ttl, req, now, token, later) => Verify(keys, s, domain, ttl, req, now, token, later).0
  }

  /** The tables after any sequence of calls, whatever clock readings, nonces and tokens they drew. */
  function Run(keys: Keys, calls: seq<Call>): State {
    if calls == [] then State(map[], map[])
    else Do(keys, Run(keys, calls[..|calls| - 1]), calls[|calls| - 1])
  }

  /** A sign-in that returned a session: what was proved, when, and the row it made. */
  datatype Grant = Grant(req: VerifyRequest, domain: string, at: int, tokenHash: string, row: SessionRow) {
    function Message(): string { Sep40Message(req.domain, req.address, req.nonce, req.timestamp) }
  }

  function Granted(keys: Keys, s: State, call: Call): seq<Grant> {
    match call
    case Ask(_, _, _, _) => []
    case Prove(domain, ttl, req, now, token, later) =>
      match Verify(keys, s, domain, ttl, req, now, token, later).1
      case Ok(session) =>
        [Grant(req, domain, now, keys.hash(token), SessionRow(session.address, session.roles, session.expiresAt))]
      case Err(_) => []
  }

  function Grants(keys: Keys, calls: seq<Call>): seq<Grant> {
    if calls == [] then []
    else Grants(keys, calls[..|calls| - 1]) + Granted(keys, Run(keys, calls[..|calls| - 1]), calls[|calls| - 1])
  }

  /** A grant rests on an unexpired challenge for its address and domain, on a signature, and still has its row. */
  ghost predicate Backed(keys: Keys, s: State, g: Grant) {
    && g.req.nonce in s.challenges
    && var c := s.challenges[g.req.nonce];
    && c.used && c.address == g.req.address && c.domain == g.req.domain == g.domain && g.at < c.expiresAt
    && keys.validAddress(g.req.address)
    && keys.verifies(g.req.address, g.req.signature, g.Message())
    && g.tokenHash in s.sessions && s.sessions[g.tokenHash] == g.row && g.row.address == c.address
  }

  ghost predicate Apart(gs: seq<Grant>, i: int, j: int)
    requires 0 <= i < |gs| && 0 <= j < |gs|
  {
    gs[i].req.nonce != gs[j].req.nonce && gs[i].tokenHash != gs[j].tokenHash
  }

  ghost predicate HasGrant(gs: seq<Grant>, h: string) {
    exists i :: 0 <= i < |gs| && gs[i].tokenHash == h
  }

  ghost predicate AllBacked(keys: Keys, s: State, gs: seq<Grant>) {
    forall i :: 0 <= i < |gs| ==> Backed(keys, s, gs[i])
  }

  ghost predicate AllApart(gs: seq<Grant>) {
    forall i, j :: 0 <= i < j < |gs| ==> Apart(gs, i, j)
  }

  ghost predicate AllListed(s: State, gs: seq<Grant>) {
    forall h :: h in s.sessions <==> HasGrant(gs, h)
  }

  /** Nothing of `s` is gone in `t`, and nothing but used marks has changed. */
  ghost predicate Kept(s: State, t: State) {
    && (forall n :: n in s.challenges ==> n in t.challenges && KeptRow(s.challenges[n], t.challenges[n]))
    && (forall h :: h in s.sessions ==> h in t.sessions && t.sessions[h] == s.sessions[h])
  }

  ghost predicate KeptRow(was: ChallengeRow, row: ChallengeRow) {
    row.(used := was.used) == was && (was.used ==> row.used)
  }

  lemma CallKeeps(keys: Keys, s: State, call: Call)
    ensures Kept(s, Do(keys, s, call))
  {
  }

  lemma CallGrants(keys: Keys, s: State, call: Call)
    ensures
      var t, more := Do(keys, s, call), Granted(keys, s, call);
      && |more| <= 1
      && (more == [] ==> t.sessions == s.sessions)
      && (more != [] ==> NewGrant(keys, s, t, more[0]))
  {
  }

  /**
   Over any run: every session was bought by one grant and every grant by one nonce; each is backed
   by an unexpired challenge for the session's address and by a signature over its message.
   */
  lemma {:induction false} RunSound(keys: Keys, calls: seq<Call>)
    ensures
      var s, gs := Run(keys, calls), Grants(keys, calls);
      AllBacked(keys, s, gs) && AllApart(gs) && AllListed(s, gs)
  {
    if calls != [] {
      var front, call := calls[..|calls| - 1], calls[|calls| - 1];
      var s, gs := Run(keys, front), Grants(keys, front);
      RunSound(keys, front);
      CallKeeps(keys, s, call);
      CallGrants(keys, s, call);
      var more := Granted(keys, s, call);
      if more == [] {
        assert gs + more == gs;
        KeepsBacked(keys, s, Do(keys, s, call), gs);
        assert AllListed(Do(keys, s, call), gs);
      } else {
        assert more == [more[0]];
        AddGrant(keys, s, gs, Do(keys, s, call), more[0]);
      }
    }
  }

  ghost predicate NewGrant(keys: Keys, s: State, t: State, g: Grant) {
    && Backed(keys, t, g)
    && t.sessions.Keys == s.sessions.Keys + {g.tokenHash} && g.tokenHash !in s.sessions
    && g.req.nonce in s.challenges && !s.challenges[g.req.nonce].used
  }

  lemma KeepsBacked(keys: Keys, s: State, t: State, gs: seq<Grant>)
    requires AllBacked(keys, s, gs) && Kept(s, t)
    ensures AllBacked(keys, t, gs)
  {
    forall i | 0 <= i < |gs| ensures Backed(keys, t, gs[i]) {
      assert Backed(keys, s, gs[i]);
    }
  }

  lemma ListsGrant(gs: seq<Grant>, g: Grant, h: string)
    ensures HasGrant(gs + [g], h) <==> HasGrant(gs, h) || h == g.tokenHash
  {
    var all := gs + [g];
    assert all[|gs|] == g;
    if HasGrant(gs, h) {
      var i :| 0 <= i < |gs| && gs[i].tokenHash == h;
      assert all[i].tokenHash == h;
    }
    if HasGrant(all, h) && h != g.tokenHash {
      var i :| 0 <= i < |all| && all[i].tokenHash == h;
      assert gs[i].tokenHash == h;
    }
  }

  lemma FarFromGrant(keys: Keys, s: State, gs: seq<Grant>, t: State, g: Grant)
    requires AllBacked(keys, s, gs) && AllApart(gs) && NewGrant(keys, s, t, g)
    ensures AllApart(gs + [g])
  {
    var all := gs + [g];
    forall i, j | 0 <= i < j < |all| ensures Apart(all, i, j) {
      assert Backed(keys, s, gs[i]);
      assert j < |gs| ==> Apart(gs, i, j);
    }
  }

  lemma AddGrant(keys: Keys, s: State, gs: seq<Grant>, t: State, g: Grant)
    requires AllBacked(keys, s, gs) && AllApart(gs) && AllListed(s, gs)
    requires Kept(s, t) && NewGrant(keys, s, t, g)
    ensures AllBacked(keys, t, gs + [g]) && AllApart(gs + [g]) && AllListed(t, gs + [g])
  {
    KeepsBacked(keys, s, t, gs);
    FarFromGrant(keys, s, gs, t, g);
    forall h ensures h in t.sessions <==> HasGrant(gs + [g], h) {
      ListsGrant(gs, g, h);
    }
  }

  /** A bearer token opens exactly the granted, unexpired sessions, each as the address that signed in. */
  lemma LookupMeaning(keys: Keys, calls: seq<Call>, token: string, now: int)
    ensures
      var found, gs := SessionByToken(keys, Run(keys, calls), token, now), Grants(keys, calls);
      && (found.Ok? <==> exists i :: 0 <= i < |gs| && gs[i].tokenHash == keys.hash(token) && now < gs[i].row.expiresAt)
      && (forall i :: 0 <= i < |gs| && gs[i].tokenHash == keys.hash(token) && found.Ok? ==>
            found.value == gs[i].row && found.value.address == gs[i].req.address)
  {
    RunSound(keys, calls);
    var s, gs := Run(keys, calls), Grants(keys, calls);
    assert forall i :: 0 <= i < |gs| ==> Backed(keys, s, gs[i]);
    if keys.hash(token) in s.sessions {
      assert HasGrant(gs, keys.hash(token));
      var i :| 0 <= i < |gs| && gs[i].tokenHash == keys.hash(token);
      assert s.sessions[keys.hash(token)] == gs[i].row;
    }
  }

  ghost predicate Timed(keys: Keys, row: ChallengeRow) {
    row.expiresAt == row.issuedAt + CHALLENGE_TTL && keys.validAddress(row.address)
  }

  ghost predicate AllTimed(keys: Keys, rows: map<string, ChallengeRow>) {
    forall n :: n in rows ==> Timed(keys, rows[n])
  }

  lemma CallTimed(keys: Keys, s: State, call: Call)
    requires AllTimed(keys, s.challenges)
    ensures AllTimed(keys, Do(keys, s, call).challenges)
  {
    var rows := Do(keys, s, call).challenges;
    forall n | n in rows ensures Timed(keys, rows[n]) {
      assert n in s.challenges ==> Timed(keys, s.challenges[n]);
    }
  }

  lemma {:induction false} ChallengesTimed(keys: Keys, calls: seq<Call>)
    ensures AllTimed(keys, Run(keys, calls).challenges)
  {
    if calls != [] {
      ChallengesTimed(keys, calls[..|calls| - 1]);
      CallTimed(keys, Run(keys, calls[..|calls| - 1]), calls[|calls| - 1]);
    }
  }

  /** Every session rests on a signature given less than five minutes after its challenge was issued. */
  lemma SignedInTime(keys: Keys, calls: seq<Call>, i: nat)
    requires i < |Grants(keys, calls)|
    ensures
      var g, rows := Grants(keys, calls)[i], Run(keys, calls).challenges;
      g.req.nonce in rows && g.at < rows[g.req.nonce].issuedAt + 5 * 60 * 1000
  {
    RunSound(keys, calls);
    ChallengesTimed(keys, calls);
    var g, rows := Grants(keys, calls)[i], Run(keys, calls).challenges;
    assert Backed(keys, Run(keys, calls), g) && Timed(keys, rows[g.req.nonce]);
  }

  ghost predicate Accepts(keys: Keys, s: State, call: Call, nonce: string) {
    call.Prove? && call.req.nonce == nonce && Refusal(keys, s, call.domain, call.req, call.now).None?
  }

  ghost predicate AcceptedIn(keys: Keys, calls: seq<Call>, nonce: string) {
    exists i :: 0 <= i < |calls| && Accepts(keys, Run(keys, calls[..i]), calls[i], nonce)
  }

  lemma CallUses(keys: Keys, s: State, call: Call, nonce: string)
    ensures
      var t := Do(keys, s, call);
      (nonce in t.challenges && t.challenges[nonce].used) <==>
        (nonce in s.challenges && s.challenges[nonce].used) || Accepts(keys, s, call, nonce)
  {
  }

  /** A challenge is marked used exactly when some call of the run has had it accepted. */
  lemma {:induction false} UsedIffAccepted(keys: Keys, calls: seq<Call>, nonce: string)
    ensures
      var s := Run(keys, calls);
      (nonce in s.challenges && s.challenges[nonce].used) <==> AcceptedIn(keys, calls, nonce)
  {
    if calls != [] {
      var n := |calls| - 1;
      var front := calls[..n];
      UsedIffAccepted(keys, front, nonce);
      CallUses(keys, Run(keys, front), calls[n], nonce);
      assert forall i :: 0 <= i <= n ==> front[..i] == calls[..i];
      if AcceptedIn(keys, front, nonce) {
        var i :| 0 <= i < n && Accepts(keys, Run(keys, front[..i]), front[i], nonce);
        assert Accepts(keys, Run(keys, calls[..i]), calls[i], nonce);
      }
      if AcceptedIn(keys, calls, nonce) {
        var i :| 0 <= i < |calls| && Accepts(keys, Run(keys, calls[..i]), calls[i], nonce);
        assert i < n ==> Accepts(keys, Run(keys, front[..i]), front[i], nonce);
      }
    }
  }

  /** A nonce is accepted at most once in a run, even when the sign-in then fails to make a session. */
  lemma AcceptedOnce(keys: Keys, calls: seq<Call>, i: nat, j: nat, nonce: string)
    requires i < j < |calls|
    requires Accepts(keys, Run(keys, calls[..i]), calls[i], nonce)
    ensures !Accepts(keys, Run(keys, calls[..j]), calls[j], nonce)
  {
    var front := calls[..j];
    assert front[..i] == calls[..i] && front[i] == calls[i];
    assert AcceptedIn(keys, front, nonce);
    UsedIffAccepted(keys, front, nonce);
  }

  ghost predicate PlainNames(calls: seq<Call>) {
    forall call :: call in calls ==> OneLine(call.domain) && (call.Ask? ==> OneLine(call.nonce))
  }

  lemma {:induction false} PlainNonces(keys: Keys, calls: seq<Call>)
    requires PlainNames(calls)
    ensures
      var rows := Run(keys, calls).challenges;
      forall n :: n in rows ==> OneLine(n) && OneLine(rows[n].domain)
  {
    if calls != [] {
      assert calls[|calls| - 1] in calls;
      PlainNonces(keys, calls[..|calls| - 1]);
    }
  }

  /** No signed message buys two sessions. */
  lemma MessageBuysOneSession(keys: Keys, calls: seq<Call>, i: nat, j: nat)
    requires PlainNames(calls)
    requires forall address :: keys.validAddress(address) ==> OneLine(address)
    requires i < j < |Grants(keys, calls)|
    ensures Grants(keys, calls)[i].Message() != Grants(keys, calls)[j].Message()
  {
    RunSound(keys, calls);
    PlainNonces(keys, calls);
    var s, gs := Run(keys, calls), Grants(keys, calls);
    assert Backed(keys, s, gs[i]) && Backed(keys, s, gs[j]) && Apart(gs, i, j);
    var a, b := gs[i].req, gs[j].req;
    MessageInjective(a.domain, a.address, a.nonce, a.timestamp, b.domain, b.address, b.nonce, b.timestamp);
  }

  /** The text as the wallet shows it. */
  lemma MessageText(domain: string, address: string, nonce: string, timestamp: string)
    ensures
      Sep40Message(domain, address, nonce, timestamp) ==
        domain + (" wants you " + "to sign in " + "with your " + "Stellar " + "account:") + "\n" + address +
        "\n" + "\n" + "Nonce: " + nonce + "\n" + "Issued At: " + timestamp + "\n"
  {
    assert "\n\nNonce: " == "\n" + "\n" + "Nonce: ";
    assert "\nIssued At: " == "\n" + "Issued At: ";
  }

  /** The call is a sign-in that goes through: accepted, its lifetime storable, its token new. */
  ghost predicate SignsIn(keys: Keys, s: State, call: Call) {
    && call.Prove?
    && Refusal(keys, s, call.domain, call.req, call.now).None?
    && call.ttl < 0x8000_0000_0000_0000
    && keys.hash(call.token) !in s.sessions
  }

  ghost predicate SignsInAt(keys: Keys, calls: seq<Call>, i: int)
    requires 0 <= i < |calls|
  {
    SignsIn(keys, Run(keys, calls[..i]), calls[i])
  }

  /** The session of a sign-in, from the call's own arguments. */
  ghost predicate SessionOf(keys: Keys, call: Call, h: string, row: SessionRow) {
    && call.Prove? && h == keys.hash(call.token)
    && row.address == call.req.address && row.roles == ["farmer"] && row.expiresAt == call.later + call.ttl
  }

  lemma CallSessions(keys: Keys, s: State, call: Call, h: string)
    ensures
      var t := Do(keys, s, call).sessions;
      && (h in t <==> h in s.sessions || (SignsIn(keys, s, call) && h == keys.hash(call.token)))
      && (h in s.sessions ==> t[h] == s.sessions[h])
      && (h in t && h !in s.sessions ==> SessionOf(keys, call, h, t[h]))
  {
  }

  /** In any run a session is there exactly if some call signed in with its token, and is that call's. */
  lemma {:induction false} SessionsFromCalls(keys: Keys, calls: seq<Call>, h: string)
    ensures
      var sessions := Run(keys, calls).sessions;
      && (forall i :: 0 <= i < |calls| && SignsInAt(keys, calls, i) && keys.hash(calls[i].token) == h ==>
            h in sessions && SessionOf(keys, calls[i], h, sessions[h]))
      && (h in sessions ==>
            exists i :: 0 <= i < |calls| && SignsInAt(keys, calls, i) && SessionOf(keys, calls[i], h, sessions[h]))
  {
    if calls != [] {
      var n := |calls| - 1;
      var front := calls[..n];
      var before, after := Run(keys, front), Run(keys, calls).sessions;
      SessionsFromCalls(keys, front, h);
      CallSessions(keys, before, calls[n], h);
      assert forall i :: 0 <= i < n ==> front[..i] == calls[..i] && front[i] == calls[i];
      forall i | 0 <= i < |calls| && SignsInAt(keys, calls, i) && keys.hash(calls[i].token) == h
        ensures h in after && SessionOf(keys, calls[i], h, after[h])
      {
        if i < n {
          assert SignsInAt(keys, front, i);
        }
      }
      if h in after {
        if h in before.sessions {
          var i :| 0 <= i < n && SignsInAt(keys, front, i) && SessionOf(keys, front[i], h, before.sessions[h]);
          assert SignsInAt(keys, calls, i);
        } else {
          assert SignsInAt(keys, calls, n);
        }
      }
    }
  }

  /** The answer to a token and a clock reading, in terms of the sign-ins of the run alone. */
  lemma FoundExactly(keys: Keys, calls: seq<Call>, token: string, now: int)
    ensures
      SessionByToken(keys, Run(keys, calls), token, now) != Err(Unauthorized) <==>
        exists i :: 0 <= i < |calls| && SignsInAt(keys, calls, i) && keys.hash(calls[i].token) == keys.hash(token) &&
                    now < calls[i].later + calls[i].ttl
  {
    SessionsFromCalls(keys, calls, keys.hash(token));
  }

  lemma FoundIs(keys: Keys, calls: seq<Call>, token: string, now: int, i: nat)
    requires i < |calls| && SignsInAt(keys, calls, i) && keys.hash(calls[i].token) == keys.hash(token)
    requires now < calls[i].later + calls[i].ttl
    ensures
      SessionByToken(keys, Run(keys, calls), token, now) ==
        Ok(SessionRow(calls[i].req.address, ["farmer"], calls[i].later + calls[i].ttl))
  {
    SessionsFromCalls(keys, calls, keys.hash(token));
  }

  /** The request names a challenge as it was issued, and in time. */
  ghost predicate Usable(s: State, req: VerifyRequest, now: int) {
    && req.nonce in s.challenges
    && var row := s.challenges[req.nonce];
    row.address == req.address && row.domain == req.domain && !row.used && now < row.expiresAt
  }

  /** Every refusal with its cause, and nothing else is refused. */
  lemma RefusalExactly(keys: Keys, s: State, domain: string, req: VerifyRequest, now: int)
    ensures
      var r, message := Refusal(keys, s, domain, req, now),
                        Sep40Message(req.domain, req.address, req.nonce, req.timestamp);
      var known, mine := keys.validAddress(req.address), req.domain == domain;
      var signed := keys.verifies(req.address, req.signature, message);
      && (r == Some(BadRequest) <==> !known || (Usable(s, req, now) && !mine))
      && (r == Some(Conflict) <==> known && !Usable(s, req, now))
      && (r == Some(Unauthorized) <==> known && Usable(s, req, now) && mine && !signed)
      && (r == None <==> known && Usable(s, req, now) && mine && signed)
  {
  }

  /** An accepted request spends its challenge whatever follows; a refused one leaves no trace. */
  lemma VerifyExactly(keys: Keys, s: State, domain: string, ttl: nat, req: VerifyRequest, now: int, token: string,
                      later: int)
    ensures
      var (t, r) := Verify(keys, s, domain, ttl, req, now, token, later);
      var refusal, h := Refusal(keys, s, domain, req, now), keys.hash(token);
      && (refusal.Some? ==> t == s && r == Err(refusal.value))
      && (refusal.None? ==>
            && req.nonce in s.challenges
            && t.challenges == s.challenges[req.nonce := s.challenges[req.nonce].(used := true)]
            && (r == Err(Internal) <==> ttl >= 0x8000_0000_0000_0000)
            && (r == Err(Database) <==> ttl < 0x8000_0000_0000_0000 && h in s.sessions)
            && (r.Err? ==> t.sessions == s.sessions && (r.error == Internal || r.error == Database))
            && (r.Ok? ==>
                  && r.value == Session(token, req.address, ["farmer"], later + ttl)
                  && t.sessions == s.sessions[h := SessionRow(req.address, ["farmer"], later + ttl)]))
  {
    RefusalExactly(keys, s, domain, req, now);
  }

  /** A challenge is issued to every valid address under a new nonce, and answered as it is stored. */
  lemma ChallengeIsStored(keys: Keys, s: State, domain: string, address: string, nonce: string, now: int)
    ensures
      var (t, r) := Issue(keys, s, domain, address, nonce, now);
      && (r == Err(BadRequest) <==> !keys.validAddress(address))
      && (r == Err(Database) <==> keys.validAddress(address) && nonce in s.challenges)
      && (r.Err? ==> t == s && (r.error == BadRequest || r.error == Database))
      && (r.Ok? ==>
            && r.value == Challenge(domain, nonce, now, address) && t.sessions == s.sessions
            && t.challenges ==
                 s.challenges[nonce := ChallengeRow(domain, address, now, now + 5 * 60 * 1000, false)])
  {
  }

  /** An honest sign-in: whoever signs the answered challenge within five minutes gets a session. */
  lemma HonestSignIn(keys: Keys, s: State, domain: string, address: string, nonce: string, issued: int,
                     timestamp: string, signature: string, ttl: nat, now: int, token: string, later: int)
    requires keys.validAddress(address) && nonce !in s.challenges && now < issued + 5 * 60 * 1000
    requires keys.verifies(address, signature, Sep40Message(domain, address, nonce, timestamp))
    requires ttl < 0x8000_0000_0000_0000 && keys.hash(token) !in s.sessions
    ensures
      var asked := Do(keys, s, Ask(domain, address, nonce, issued));
      var req := VerifyRequest(address, domain, nonce, timestamp, signature);
      var (t, r) := Verify(keys, asked, domain, ttl, req, now, token, later);
      && r == Ok(Session(token, address, ["farmer"], later + ttl))
      && t.sessions == s.sessions[keys.hash(token) := SessionRow(address, ["farmer"], later + ttl)]
      && Verify(keys, t, domain, ttl, req, now, token, later).1 == Err(Conflict)
  {
  }

  class AuthService {
    const keys: Keys
    var challenges: map<string, ChallengeRow>
    var sessions: map<string, SessionRow>

    constructor (keys: Keys)
      ensures this.keys == keys && Tables() == State(map[], map[])
    {
      this.keys := keys;
      challenges, sessions := map[], map[];
    }

    function Tables(): State
      reads this
    {
      State(challenges, sessions)
    }

    method IssueChallenge(domain: string, address: string, nonce: string, now: int)
      returns (r: Result<Challenge, Error>)
      modifies this`challenges
      ensures (Tables(), r) == Issue(keys, old(Tables()), domain, address, nonce, now)
    {
      if !keys.validAddress(address) {
        return Err(BadRequest);
      }
      if nonce in challenges {
        return Err(Database);
      }
      challenges := challenges[nonce := ChallengeRow(domain, address, now, now + CHALLENGE_TTL, false)];
      r := Ok(Challenge(domain, nonce, now, address));
    }

    method VerifyChallenge(domain: string, ttl: nat, req: VerifyRequest, now: int, token: string, later: int)
      returns (r: Result<Session, Error>)
      modifies this
      ensures (Tables(), r) == Verify(keys, old(Tables()), domain, ttl, req, now, token, later)
    {
      if !keys.validAddress(req.address) {
        return Err(BadRequest);
      }
      if req.nonce !in challenges {
        return Err(Conflict);
      }
      var row := challenges[req.nonce];
      if row.address != req.address || row.domain != req.domain {
        return Err(Conflict);
      }
      if row.used || row.expiresAt <= now {
        return Err(Conflict);
      }
      if row.domain != domain {
        return Err(BadRequest);
      }
      var message := Sep40Message(req.domain, req.address, req.nonce, req.timestamp);
      if !keys.verifies(req.address, req.signature, message) {
        return Err(Unauthorized);
      }
      challenges := challenges[req.nonce := row.(used := true)];
      var tokenHash := keys.hash(token);
      if !FitsI64(ttl) {
        return Err(Internal);
      }
      if tokenHash in sessions {
        return Err(Database);
      }
      sessions := sessions[tokenHash := SessionRow(req.address, FARMER_ROLES, later + ttl)];
      r := Ok(Session(token, req.address, FARMER_ROLES, later + ttl));
    }

    method FindSession(token: string, now: int) returns (r: Result<SessionRow, Error>)
      ensures r == SessionByToken(keys, Tables(), token, now)
    {
      var tokenHash := keys.hash(token);
      if tokenHash !in sessions {
        return Err(Unauthorized);
      }
      var row := sessions[tokenHash];
      if row.expiresAt <= now {
        return Err(Unauthorized);
      }
      r := Ok(row);
    }
  }
}
