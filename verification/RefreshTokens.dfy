/** Refresh credentials: login, rotation, logout and password change as transactions that hold the
    lock on one user's row, with clocks that may run backwards. */
module RefreshTokens {
  import opened Options
  import opened Numbers

  /** Seven days, in seconds. */
  const REFRESH_TOKEN_TTL: int := 604800

  type UserId = nat
  type TokenHash = nat
  type PasswordHash = nat

  /** One credential row. The last four fields are history that the model keeps about the row: the
      password hash and the password epoch that its login verified, the first credential of
      its login family, and its predecessor in the family. */
  datatype Token = Token(
    createdAt: int,
    expiresAt: int,
    revokedAt: Option<int>,
    loginHash: PasswordHash,
    epoch: nat,
    family: TokenHash,
    generation: nat,
    parent: Option<TokenHash>)

  /** The rows that one user's lock protects; `epoch` counts the committed password changes. */
  datatype UserRows = UserRows(passwordHash: PasswordHash, epoch: nat, tokens: map<TokenHash, Token>)

  type Store = map<UserId, UserRows>

  /** Does the plaintext match the stored hash? Nothing more is known about it. */
  type Verifier = (string, PasswordHash) -> bool

  datatype Operation =
    | Login(password: string, now: int, issued: TokenHash)
    | Rotate(token: TokenHash, now: int, issued: TokenHash)
    | Logout(token: TokenHash, now: int)
    | ChangePassword(password: string, replacement: PasswordHash, now: int)

  predicate Active(t: Token) {
    t.revokedAt.None?
  }

  function Revoked(t: Token, now: int): Token {
    t.(revokedAt := Some(Max(now, t.createdAt)))
  }

  function RevokeAll(tokens: map<TokenHash, Token>, now: int): map<TokenHash, Token> {
    map h | h in tokens :: if Active(tokens[h]) then Revoked(tokens[h], now) else tokens[h]
  }

  /** What the operation does to the rows it locked, or nothing when it aborts. */
  function Act(verify: Verifier, rows: UserRows, op: Operation): Option<UserRows> {
    match op
    case Login(password, now, issued) =>
      if !verify(password, rows.passwordHash) then None
      else Some(rows.(tokens := rows.tokens[issued :=
             Token(now, now + REFRESH_TOKEN_TTL, None, rows.passwordHash, rows.epoch, issued, 0, None)]))
    case Rotate(token, now, issued) =>
      if token !in rows.tokens then None
      else
        var t := rows.tokens[token];
        if t.revokedAt.Some? || !(t.createdAt <= now < t.expiresAt) then None
        else Some(rows.(tokens := rows.tokens[token := t.(revokedAt := Some(now))][issued :=
               Token(now, now + REFRESH_TOKEN_TTL, None, t.loginHash, t.epoch, t.family, t.generation + 1,
                     Some(token))]))
    case Logout(token, now) =>
      if token !in rows.tokens || rows.tokens[token].revokedAt.Some? then Some(rows)
      else Some(rows.(tokens := rows.tokens[token := Revoked(rows.tokens[token], now)]))
    case ChangePassword(password, replacement, now) =>
      if !verify(password, rows.passwordHash) then None
      else Some(UserRows(replacement, rows.epoch + 1, RevokeAll(rows.tokens, now)))
  }

  /** The hash that the operation inserts, if any. */
  function Issues(op: Operation): Option<TokenHash> {
    match op
    case Login(_, _, issued) => Some(issued)
    case Rotate(_, _, issued) => Some(issued)
    case Logout(_, _) => None
    case ChangePassword(_, _, _) => None
  }

  predicate Unused(st: Store, h: TokenHash) {
    forall u :: u in st ==> h !in st[u].tokens
  }

  /** One committed or aborted transaction of user `u`. Inserting a used hash aborts it. */
  function Commit(verify: Verifier, st: Store, u: UserId, op: Operation): Store {
    if u !in st then st
    else
      var after := Act(verify, st[u], op);
      if after.None? || (Issues(op).Some? && !Unused(st, Issues(op).value)) then st
      else st[u := after.value]
  }

  // ------------------------------------------------------------- invariants

  /** The table's check constraints. */
  predicate RowShape(t: Token) {
    t.expiresAt > t.createdAt && (t.revokedAt.Some? ==> t.revokedAt.value >= t.createdAt)
  }

  /** The credential can be exchanged at this time. */
  predicate Usable(tokens: map<TokenHash, Token>, h: TokenHash, now: int) {
    h in tokens && tokens[h].revokedAt.None? && tokens[h].createdAt <= now < tokens[h].expiresAt
  }

  /** An active credential comes from a login that verified the current password hash. */
  predicate CleanCut(rows: UserRows, t: Token) {
    && t.epoch <= rows.epoch
    && (Active(t) ==> t.epoch == rows.epoch && t.loginHash == rows.passwordHash)
  }

  /** The family tree: a login starts a family, a rotation retires its predecessor while it is still
      valid. */
  predicate Descent(tokens: map<TokenHash, Token>, h: TokenHash)
    requires h in tokens
  {
    var t := tokens[h];
    match t.parent
    case None => t.family == h && t.generation == 0
    case Some(p) =>
      && p in tokens && tokens[p].revokedAt.Some?
      && tokens[p].family == t.family && tokens[p].generation + 1 == t.generation
      && tokens[p].loginHash == t.loginHash && tokens[p].epoch == t.epoch
      && tokens[p].revokedAt == Some(t.createdAt)
      && tokens[p].createdAt <= t.createdAt < tokens[p].expiresAt
  }

  predicate TokenOk(rows: UserRows, h: TokenHash)
    requires h in rows.tokens
  {
    && RowShape(rows.tokens[h]) && CleanCut(rows, rows.tokens[h])
    && rows.tokens[h].expiresAt == rows.tokens[h].createdAt + 604_800
    && Descent(rows.tokens, h) && rows.tokens[h].family in rows.tokens
  }

  /** Each credential has at most one successor. */
  ghost predicate OneSuccessor(tokens: map<TokenHash, Token>) {
    forall a, b :: a in tokens && b in tokens && tokens[a].parent.Some? && tokens[a].parent == tokens[b].parent ==>
      a == b
  }

  predicate SameActiveFamily(s: Token, t: Token) {
    Active(s) && Active(t) && s.family == t.family
  }

  /** Each login family has at most one active member. */
  ghost predicate OneActive(tokens: map<TokenHash, Token>) {
    forall a, b :: a in tokens && b in tokens && SameActiveFamily(tokens[a], tokens[b]) ==> a == b
  }

  ghost predicate RowsOk(rows: UserRows) {
    && (forall h {:trigger TokenOk(rows, h)} :: h in rows.tokens ==> TokenOk(rows, h))
    && OneSuccessor(rows.tokens)
    && OneActive(rows.tokens)
  }

  ghost predicate StoreOk(st: Store) {
    && (forall u :: u in st ==> RowsOk(st[u]))
    && (forall u, v, h :: u in st && v in st && h in st[u].tokens && h in st[v].tokens ==> u == v)
  }

  lemma LoginKeeps(verify: Verifier, rows: UserRows, op: Operation)
    requires RowsOk(rows) && op.Login? && op.issued !in rows.tokens
    ensures Act(verify, rows, op).Some? ==> RowsOk(Act(verify, rows, op).value)
  {
    if Act(verify, rows, op).Some? {
      var after := Act(verify, rows, op).value;
      forall h | h in after.tokens ensures TokenOk(after, h) {
        assert h != op.issued ==> TokenOk(rows, h);
      }
      forall a | a in rows.tokens ensures after.tokens[a].family != op.issued {
        assert TokenOk(rows, a);
      }
    }
  }

  lemma RotateKeepsTokens(verify: Verifier, rows: UserRows, op: Operation, h: TokenHash)
    requires RowsOk(rows) && op.Rotate? && op.issued !in rows.tokens
    requires Act(verify, rows, op).Some? && h in Act(verify, rows, op).value.tokens
    ensures TokenOk(Act(verify, rows, op).value, h)
  {
    assert TokenOk(rows, op.token);
    if h != op.issued {
      assert TokenOk(rows, h);
    }
  }

  lemma RotateKeepsEach(verify: Verifier, rows: UserRows, op: Operation, after: UserRows)
    requires RowsOk(rows) && op.Rotate? && op.issued !in rows.tokens && Act(verify, rows, op) == Some(after)
    ensures forall h {:trigger TokenOk(after, h)} :: h in after.tokens ==> TokenOk(after, h)
  {
    forall h | h in after.tokens ensures TokenOk(after, h) {
      RotateKeepsTokens(verify, rows, op, h);
    }
  }

  lemma RotateKeeps(verify: Verifier, rows: UserRows, op: Operation)
    requires RowsOk(rows) && op.Rotate? && op.issued !in rows.tokens
    ensures Act(verify, rows, op).Some? ==> RowsOk(Act(verify, rows, op).value)
  {
    if Act(verify, rows, op).Some? {
      var after := Act(verify, rows, op).value;
      RotateKeepsEach(verify, rows, op, after);
      ActiveHasNoSuccessor(rows, op.token);
      RotateKeepsPairs(rows.tokens, after.tokens, op.token, op.issued);
    }
  }

  /** Only a retired credential has a successor. */
  lemma ActiveHasNoSuccessor(rows: UserRows, token: TokenHash)
    requires RowsOk(rows) && token in rows.tokens && Active(rows.tokens[token])
    ensures forall a :: a in rows.tokens ==> rows.tokens[a].parent != Some(token)
  {
    forall a | a in rows.tokens ensures rows.tokens[a].parent != Some(token) {
      assert TokenOk(rows, a);
    }
  }

  lemma RotateKeepsPairs(was: map<TokenHash, Token>, now: map<TokenHash, Token>, token: TokenHash, issued: TokenHash)
    requires OneSuccessor(was) && OneActive(was)
    requires token in was && Active(was[token]) && issued !in was && issued in now
    requires now.Keys == was.Keys + {issued}
    requires forall h :: h in was && h != token ==> now[h] == was[h]
    requires !Active(now[token]) && now[token].parent == was[token].parent
    requires now[issued].family == was[token].family && now[issued].parent == Some(token)
    requires forall a :: a in was ==> was[a].parent != Some(token)
    ensures OneSuccessor(now) && OneActive(now)
  {
    forall a, b | a in now && b in now && SameActiveFamily(now[a], now[b]) ensures a == b {
      var x := if a == issued then token else a;
      var y := if b == issued then token else b;
      assert SameActiveFamily(was[x], was[y]);
    }
  }

  lemma LogoutKeeps(verify: Verifier, rows: UserRows, op: Operation)
    requires RowsOk(rows) && op.Logout?
    ensures Act(verify, rows, op).Some? && RowsOk(Act(verify, rows, op).value)
  {
    var after := Act(verify, rows, op).value;
    forall h | h in after.tokens ensures TokenOk(after, h) {
      assert TokenOk(rows, h);
    }
  }

  lemma ChangeKeeps(verify: Verifier, rows: UserRows, op: Operation)
    requires RowsOk(rows) && op.ChangePassword?
    ensures Act(verify, rows, op).Some? ==> RowsOk(Act(verify, rows, op).value)
  {
    if Act(verify, rows, op).Some? {
      var after := Act(verify, rows, op).value;
      forall h | h in after.tokens ensures TokenOk(after, h) {
        assert TokenOk(rows, h);
      }
    }
  }

  lemma ActKeeps(verify: Verifier, rows: UserRows, op: Operation)
    requires RowsOk(rows)
    requires Issues(op).Some? ==> Issues(op).value !in rows.tokens
    ensures Act(verify, rows, op).Some? ==> RowsOk(Act(verify, rows, op).value)
  {
    match op {
      case Login(_, _, _) => LoginKeeps(verify, rows, op);
      case Rotate(_, _, _) => RotateKeeps(verify, rows, op);
      case Logout(_, _) => LogoutKeeps(verify, rows, op);
      case ChangePassword(_, _, _) => ChangeKeeps(verify, rows, op);
    }
  }

  lemma ActKeys(verify: Verifier, rows: UserRows, op: Operation)
    requires Act(verify, rows, op).Some?
    ensures Act(verify, rows, op).value.tokens.Keys
         == rows.tokens.Keys + (if Issues(op).Some? then {Issues(op).value} else {})
  {
  }

  /** Every committed or aborted transaction keeps the store in order, under any clock. */
  lemma CommitKeeps(verify: Verifier, st: Store, u: UserId, op: Operation)
    requires StoreOk(st)
    ensures StoreOk(Commit(verify, st, u, op))
  {
    var after := Commit(verify, st, u, op);
    if after != st {
      ActKeeps(verify, st[u], op);
      ActKeys(verify, st[u], op);
      forall v, w, h | v in after && w in after && h in after[v].tokens && h in after[w].tokens
        ensures v == w
      {
        assert v != u ==> h in st[v].tokens;
        assert w != u ==> h in st[w].tokens;
      }
    }
  }

  // -------------------------------------------------------- interleaved runs

  /** A transaction in flight, with the rows it read when it got the lock. */
  datatype InFlight = InFlight(op: Operation, seen: UserRows)

  datatype System = System(store: Store, locks: map<UserId, InFlight>)

  datatype Step =
    | Acquire(user: UserId, op: Operation)
    | Finish(user: UserId)
    | Abort(user: UserId)

  /** Transactions of different users run side by side; a held lock makes others of that user wait.
      A transaction decides on the rows it saw and installs its result when it commits. */
  function Apply(verify: Verifier, s: System, step: Step): System {
    match step
    case Acquire(u, op) =>
      if u in s.locks || u !in s.store then s
      else s.(locks := s.locks[u := InFlight(op, s.store[u])])
    case Finish(u) =>
      if u !in s.locks then s
      else
        var t := s.locks[u];
        var after := Act(verify, t.seen, t.op);
        if after.None? || (Issues(t.op).Some? && !Unused(s.store, Issues(t.op).value))
        then s.(locks := s.locks - {u})
        else System(s.store[u := after.value], s.locks - {u})
    case Abort(u) => s.(locks := s.locks - {u})
  }

  function Run(verify: Verifier, s: System, steps: seq<Step>): System
    decreases |steps|
  {
    if steps == [] then s else Run(verify, Apply(verify, s, steps[0]), steps[1..])
  }

  /** The transactions in the order in which they finished. */
  function Finished(verify: Verifier, s: System, steps: seq<Step>): seq<(UserId, Operation)>
    decreases |steps|
  {
    if steps == [] then []
    else (if steps[0].Finish? && steps[0].user in s.locks
          then [(steps[0].user, s.locks[steps[0].user].op)] else [])
         + Finished(verify, Apply(verify, s, steps[0]), steps[1..])
  }

  function Serial(verify: Verifier, st: Store, log: seq<(UserId, Operation)>): Store
    decreases |log|
  {
    if log == [] then st else Serial(verify, Commit(verify, st, log[0].0, log[0].1), log[1..])
  }

  /** What a lock holder has seen is still there. */
  ghost predicate LocksFresh(s: System) {
    forall u :: u in s.locks ==> u in s.store && s.locks[u].seen == s.store[u]
  }

  lemma ApplyKeepsFresh(verify: Verifier, s: System, step: Step)
    requires LocksFresh(s)
    ensures LocksFresh(Apply(verify, s, step))
  {
  }

  /** The user row lock makes every interleaving equal to running the finished transactions one
      after the other, in the order in which they finished. */
  lemma {:induction false} Serializable(verify: Verifier, s: System, steps: seq<Step>)
    requires LocksFresh(s)
    ensures Run(verify, s, steps).store == Serial(verify, s.store, Finished(verify, s, steps))
    decreases |steps|
  {
    if steps != [] {
      var t := Apply(verify, s, steps[0]);
      ApplyKeepsFresh(verify, s, steps[0]);
      Serializable(verify, t, steps[1..]);
      var rest := Finished(verify, t, steps[1..]);
      if steps[0].Finish? && steps[0].user in s.locks {
        var first := (steps[0].user, s.locks[steps[0].user].op);
        assert ([first] + rest)[1..] == rest;
        assert t.store == Commit(verify, s.store, first.0, first.1);
      } else {
        assert [] + rest == rest;
      }
    }
  }

  lemma {:induction false} SerialKeeps(verify: Verifier, st: Store, log: seq<(UserId, Operation)>)
    requires StoreOk(st)
    ensures StoreOk(Serial(verify, st, log))
    decreases |log|
  {
    if log != [] {
      CommitKeeps(verify, st, log[0].0, log[0].1);
      SerialKeeps(verify, Commit(verify, st, log[0].0, log[0].1), log[1..]);
    }
  }

  // ------------------------------------------------------------ main results

  ghost predicate NoCredentials(st: Store) {
    forall u :: u in st ==> st[u].tokens == map[]
  }

  /** A password change is a clean cut: under every interleaving and every clock, each active
      credential of a user descends from a login that verified the user's current password hash
      in the current password epoch. */
  lemma PasswordChangeIsCleanCut(verify: Verifier, st: Store, steps: seq<Step>, u: UserId, h: TokenHash)
    requires NoCredentials(st)
    requires var now := Run(verify, System(st, map[]), steps).store;
             u in now && h in now[u].tokens && Active(now[u].tokens[h])
    ensures var rows := Run(verify, System(st, map[]), steps).store[u];
            var t := rows.tokens[h];
            && t.epoch == rows.epoch && t.loginHash == rows.passwordHash
            && t.family in rows.tokens && rows.tokens[t.family].loginHash == rows.passwordHash
            && rows.tokens[t.family].parent.None? && rows.tokens[t.family].epoch == rows.epoch
  {
    Serializable(verify, System(st, map[]), steps);
    var log := Finished(verify, System(st, map[]), steps);
    SerialKeeps(verify, st, log);
    var rows := Serial(verify, st, log)[u];
    assert TokenOk(rows, h);
    RootOf(rows, h);
  }

  /** Following predecessors from any credential leads to the login that started its family. */
  lemma {:induction false} RootOf(rows: UserRows, h: TokenHash)
    requires RowsOk(rows) && h in rows.tokens
    ensures var t := rows.tokens[h];
            && t.family in rows.tokens
            && rows.tokens[t.family].parent.None?
            && rows.tokens[t.family].family == t.family
            && rows.tokens[t.family].loginHash == t.loginHash
            && rows.tokens[t.family].epoch == t.epoch
    decreases rows.tokens[h].generation
  {
    assert TokenOk(rows, h);
    if rows.tokens[h].parent.Some? {
      RootOf(rows, rows.tokens[h].parent.value);
    }
  }

  /** Right after a committed change the user has no active credential at all. */
  lemma NoneSurvivesChange(verify: Verifier, st: Store, u: UserId, op: Operation)
    requires op.ChangePassword? && Commit(verify, st, u, op) != st
    ensures forall h :: h in Commit(verify, st, u, op)[u].tokens ==>
              !Active(Commit(verify, st, u, op)[u].tokens[h])
  {
  }

  function ActiveOf(tokens: map<TokenHash, Token>): set<TokenHash> {
    set h | h in tokens && Active(tokens[h])
  }

  lemma CountIssued(was: map<TokenHash, Token>, issued: TokenHash, t: Token)
    requires issued !in was && Active(t)
    ensures |ActiveOf(was[issued := t])| == |ActiveOf(was)| + 1
  {
    assert ActiveOf(was[issued := t]) == ActiveOf(was) + {issued};
  }

  lemma CountRevoked(was: map<TokenHash, Token>, token: TokenHash, t: Token)
    requires token in was && Active(was[token]) && !Active(t)
    ensures |ActiveOf(was[token := t])| == |ActiveOf(was)| - 1
  {
    assert ActiveOf(was[token := t]) == ActiveOf(was) - {token};
  }

  /** How many active credentials a committed operation adds to `before` of them. */
  function ExpectedActive(op: Operation, before: nat): int {
    match op
    case Login(_, _, _) => before + 1
    case Rotate(_, _, _) => before
    case Logout(_, _) => before - 1
    case ChangePassword(_, _, _) => 0
  }

  lemma ActChangesCount(verify: Verifier, rows: UserRows, op: Operation)
    requires Act(verify, rows, op).Some?
    requires Issues(op).Some? ==> Issues(op).value !in rows.tokens
    ensures var after := Act(verify, rows, op).value;
            after == rows || |ActiveOf(after.tokens)| == ExpectedActive(op, |ActiveOf(rows.tokens)|)
  {
    var was := rows.tokens;
    match op {
      case Login(_, now, issued) =>
        CountIssued(was, issued, Act(verify, rows, op).value.tokens[issued]);
      case Rotate(token, now, issued) =>
        var retired := was[token].(revokedAt := Some(now));
        CountRevoked(was, token, retired);
        CountIssued(was[token := retired], issued, Act(verify, rows, op).value.tokens[issued]);
      case Logout(token, now) =>
        if Act(verify, rows, op).value != rows {
          CountRevoked(was, token, Revoked(was[token], now));
        }
      case ChangePassword(_, _, now) =>
        assert ActiveOf(RevokeAll(was, now)) == {};
    }
  }

  /** Login adds one active credential, rotation keeps their number, logout removes at most the
      presented one, a password change removes all, and an aborted transaction changes nothing. */
  lemma ActiveCount(verify: Verifier, st: Store, u: UserId, op: Operation)
    requires u in st
    ensures var after := Commit(verify, st, u, op);
            && after.Keys == st.Keys
            && (forall v :: v in st && v != u ==> after[v] == st[v])
            && (after[u] == st[u]
                || |ActiveOf(after[u].tokens)| == ExpectedActive(op, |ActiveOf(st[u].tokens)|))
  {
    if Commit(verify, st, u, op) != st {
      ActChangesCount(verify, st[u], op);
    }
  }

  /** A family outlives each of its credentials only by rotations made in time: under every
      interleaving a credential is valid for seven days, and was issued by a login or in exchange for
      one that was still valid and was retired at that moment. */
  lemma ExchangedInTime(verify: Verifier, st: Store, steps: seq<Step>, u: UserId, h: TokenHash)
    requires NoCredentials(st)
    requires var now := Run(verify, System(st, map[]), steps).store; u in now && h in now[u].tokens
    ensures var tokens := Run(verify, System(st, map[]), steps).store[u].tokens;
            var t := tokens[h];
            && t.expiresAt == t.createdAt + 604_800
            && (t.parent.None? ==> t.family == h)
            && (t.parent.Some? ==>
                  && t.parent.value in tokens
                  && var p := tokens[t.parent.value];
                     p.revokedAt == Some(t.createdAt) && p.createdAt <= t.createdAt < p.createdAt + 604_800)
  {
    Serializable(verify, System(st, map[]), steps);
    var log := Finished(verify, System(st, map[]), steps);
    SerialKeeps(verify, st, log);
    var rows := Serial(verify, st, log)[u];
    assert TokenOk(rows, h);
    if rows.tokens[h].parent.Some? {
      assert TokenOk(rows, rows.tokens[h].parent.value);
    }
  }

  /** Families under every interleaving: one successor per credential, one active member per
      family, and every row passes the table's checks. */
  lemma FamiliesStayLinear(verify: Verifier, st: Store, steps: seq<Step>)
    requires NoCredentials(st)
    ensures StoreOk(Run(verify, System(st, map[]), steps).store)
  {
    Serializable(verify, System(st, map[]), steps);
    SerialKeeps(verify, st, Finished(verify, System(st, map[]), steps));
  }

  // -------------------------------------------------------------- the service

  /** The authentication service over its tables. `committed` is false when the transaction fails
      before its commit for any other reason. */
  class AuthenticationService {
    const verify: Verifier
    var store: Store

    ghost predicate Valid()
      reads this
    {
      StoreOk(store)
    }

    constructor (verify: Verifier, accounts: Store)
      requires NoCredentials(accounts)
      ensures Valid() && store == accounts && this.verify == verify
    {
      this.verify := verify;
      store := accounts;
    }

    /** Nothing but the credentials of `u` differs, and of those only the listed ones. */
    twostate predicate OnlyTokens(u: UserId, touched: set<TokenHash>)
      reads this
    {
      && store.Keys == old(store).Keys && u in store
      && (forall v :: v in store && v != u ==> store[v] == old(store)[v])
      && store[u].passwordHash == old(store)[u].passwordHash && store[u].epoch == old(store)[u].epoch
      && (forall h :: h !in touched ==> (h in store[u].tokens <==> h in old(store)[u].tokens))
      && (forall h :: h !in touched && h in store[u].tokens ==> store[u].tokens[h] == old(store)[u].tokens[h])
    }

    method AuthenticateUser(u: UserId, password: string, now: int, issued: TokenHash, committed: bool)
      returns (ok: bool)
      requires Valid()
      modifies this`store
      ensures Valid()
      ensures store == if committed then Commit(verify, old(store), u, Login(password, now, issued)) else old(store)
      ensures ok <==> && committed && u in old(store) && verify(password, old(store)[u].passwordHash)
                      && Unused(old(store), issued)
      ensures !ok ==> store == old(store)
      // a new family with one credential, valid for seven days
      ensures ok ==> && OnlyTokens(u, {issued}) && issued in store[u].tokens
                     && var t := store[u].tokens[issued];
                        && t.createdAt == now && t.expiresAt == now + 604_800 && Active(t)
                        && t.family == issued && t.parent.None?
    {
      CommitKeeps(verify, store, u, Login(password, now, issued));
      if u !in store || !verify(password, store[u].passwordHash) {
        return false;
      }
      var rows := store[u];
      var token := Token(now, now + REFRESH_TOKEN_TTL, None, rows.passwordHash, rows.epoch, issued, 0, None);
      if !Unused(store, issued) || !committed {
        return false;
      }
      store := store[u := rows.(tokens := rows.tokens[issued := token])];
      ok := true;
    }

    method RefreshAuthentication(u: UserId, token: TokenHash, now: int, issued: TokenHash, committed: bool)
      returns (ok: bool)
      requires Valid()
      modifies this`store
      ensures Valid()
      ensures store == if committed then Commit(verify, old(store), u, Rotate(token, now, issued)) else old(store)
      ensures ok <==> && committed && u in old(store) && Usable(old(store)[u].tokens, token, now)
                      && Unused(old(store), issued)
      ensures !ok ==> store == old(store)
      // the presented credential is retired and one of its family, valid for seven days, takes its place
      ensures ok ==> && OnlyTokens(u, {token, issued}) && issued in store[u].tokens && token in store[u].tokens
                     && var was, t := old(store)[u].tokens[token], store[u].tokens[issued];
                        && store[u].tokens[token] == was.(revokedAt := Some(now))
                        && t.createdAt == now && t.expiresAt == now + 604_800 && Active(t)
                        && t.family == was.family && t.parent == Some(token)
    {
      CommitKeeps(verify, store, u, Rotate(token, now, issued));
      if u !in store || token !in store[u].tokens {
        return false;
      }
      var rows := store[u];
      var t := rows.tokens[token];
      if t.revokedAt.Some? || !(t.createdAt <= now < t.expiresAt) {
        return false;
      }
      var replacement := Token(now, now + REFRESH_TOKEN_TTL, None, t.loginHash, t.epoch, t.family,
                               t.generation + 1, Some(token));
      if !Unused(store, issued) || !committed {
        return false;
      }
      store := store[u := rows.(tokens := rows.tokens[token := t.(revokedAt := Some(now))][issued := replacement])];
      ok := true;
    }

    method LogoutRefreshToken(u: UserId, token: TokenHash, now: int, committed: bool)
      requires Valid()
      modifies this`store
      ensures Valid()
      ensures store == if committed then Commit(verify, old(store), u, Logout(token, now)) else old(store)
      // an active credential is retired, at a time not before its creation; nothing else ever changes
      ensures if committed && u in old(store) && token in old(store)[u].tokens && Active(old(store)[u].tokens[token])
              then && OnlyTokens(u, {token}) && token in store[u].tokens
                   && var was := old(store)[u].tokens[token];
                      store[u].tokens[token] == was.(revokedAt := Some(Max(now, was.createdAt)))
              else store == old(store)
    {
      CommitKeeps(verify, store, u, Logout(token, now));
      if committed && u in store && token in store[u].tokens {
        var rows := store[u];
        var t := rows.tokens[token];
        if t.revokedAt.None? {
          t := t.(revokedAt := Some(if now < t.createdAt then t.createdAt else now));
          rows := rows.(tokens := rows.tokens[token := t]);
        }
        store := store[u := rows];
      }
    }

    method ChangeUserPassword(u: UserId, password: string, replacement: PasswordHash, now: int, committed: bool)
      returns (ok: bool)
      requires Valid()
      modifies this`store
      ensures Valid()
      ensures store == if committed then Commit(verify, old(store), u, ChangePassword(password, replacement, now))
                       else old(store)
      ensures ok <==> committed && u in old(store) && verify(password, old(store)[u].passwordHash)
      ensures !ok ==> store == old(store)
      // the hash is replaced, and every active credential of the user retired
      ensures ok ==> && store.Keys == old(store).Keys
                     && (forall v :: v in store && v != u ==> store[v] == old(store)[v])
                     && store[u].passwordHash == replacement
                     && store[u].tokens.Keys == old(store)[u].tokens.Keys
                     && forall h :: h in store[u].tokens ==>
                          var was := old(store)[u].tokens[h];
                          store[u].tokens[h] == if Active(was) then was.(revokedAt := Some(Max(now, was.createdAt)))
                                                else was
    {
      CommitKeeps(verify, store, u, ChangePassword(password, replacement, now));
      if u !in store || !verify(password, store[u].passwordHash) || !committed {
        return false;
      }
      var rows := store[u];
      store := store[u := UserRows(replacement, rows.epoch + 1, RevokeAll(rows.tokens, now))];
      ok := true;
    }
  }
}
