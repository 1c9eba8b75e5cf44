/**
 * Per-user data keys: created by whichever process gets there first, cached by all of them, and
 * used to seal credentials. Sealing is symbolic: what is sealed under a key opens under that key only.
 */
module Vault {
  import opened Basics

  type User = nat
  type Process = nat

  datatype Key = Master | Data(id: nat)

  datatype Plain = KeyBytes(key: Key) | Credential(text: string)

  datatype Envelope = Envelope(version: int, key: Key, plain: Plain)

  /** What is stored as a string: readable JSON or not. */
  datatype Encoded = Json(envelope: Envelope) | Garbage

  datatype Failure = Malformed | UnsupportedVersion | WrongKey

  function Seal(key: Key, plain: Plain, version: int): Encoded {
    Json(Envelope(version, key, plain))
  }

  function Open(key: Key, envelope: Envelope): Result<Plain, Failure> {
    if envelope.key == key then Ok(envelope.plain) else Err(WrongKey)
  }

  function ParseEnvelope(encoded: Encoded): Result<Envelope, Failure> {
    match encoded
    case Garbage => Err(Malformed)
    case Json(envelope) => if envelope.version != 1 && envelope.version != 2 then Err(UnsupportedVersion) else Ok(envelope)
  }

  /** Decryption with the user's data key at hand: version 1 predates data keys and opens under the master key. */
  function Decrypt(dataKey: Key, encoded: Encoded): Result<Plain, Failure> {
    match ParseEnvelope(encoded)
    case Err(failure) => Err(failure)
    case Ok(envelope) => Open(if envelope.version == 1 then Master else dataKey, envelope)
  }

  // ------------------------------------------------------------- the race

  /** One call of dataKeyFor; the key in Made is this call's own proposal. */
  datatype Stage = Looking | Missing | Made(key: Key) | Offered | Done(key: Key)

  datatype Call = Call(process: Process, user: User, stage: Stage)

  /** A credential some process sealed for a user. */
  datatype Secret = Secret(user: User, text: string, encoded: Encoded)

  datatype State = State(
    table: map<User, Encoded>,
    caches: map<(Process, User), Key>,
    calls: map<nat, Call>,
    secrets: set<Secret>)

  datatype Step =
    | Begin(call: nat, process: Process, user: User)
    | Look(call: nat)
    | Make(call: nat, id: nat)
    | Offer(call: nat)
    | ReadBack(call: nat)
    | Encrypt(call: nat, text: string)
    | ClearCache(process: Process)

  predicate AtStage(s: State, call: nat, stage: Stage) {
    call in s.calls && s.calls[call].stage == stage
  }

  /** The key a stored row unwraps to. */
  function Unwrap(encoded: Encoded): Option<Key> {
    match ParseEnvelope(encoded)
    case Err(_) => None
    case Ok(envelope) =>
      match Open(Master, envelope)
      case Err(_) => None
      case Ok(plain) => if plain.KeyBytes? then Some(plain.key) else None
  }

  predicate Enabled(s: State, step: Step) {
    match step
    case Begin(call, _, _) => call !in s.calls
    case Look(call) => AtStage(s, call, Looking)
    case Make(call, _) => AtStage(s, call, Missing)
    case Offer(call) => call in s.calls && s.calls[call].stage.Made?
    case ReadBack(call) => AtStage(s, call, Offered) && s.calls[call].user in s.table
    case Encrypt(call, _) => call in s.calls && s.calls[call].stage.Done?
    case ClearCache(_) => true
  }

  function To(s: State, call: nat, stage: Stage): State
    requires call in s.calls
  {
    s.(calls := s.calls[call := s.calls[call].(stage := stage)])
  }

  /** The call takes the stored key, remembers it and is done. */
  function Adopt(s: State, call: nat): State
    requires call in s.calls && s.calls[call].user in s.table
  {
    var c := s.calls[call];
    match Unwrap(s.table[c.user])
    case None => s
    case Some(key) => To(s, call, Done(key)).(caches := s.caches[(c.process, c.user) := key])
  }

  function Apply(s: State, step: Step): State
    requires Enabled(s, step)
  {
    match step
    case Begin(call, process, user) =>
      var stage := if (process, user) in s.caches then Done(s.caches[(process, user)]) else Looking;
      s.(calls := s.calls[call := Call(process, user, stage)])
    case Look(call) => if s.calls[call].user in s.table then Adopt(s, call) else To(s, call, Missing)
    case Make(call, id) => To(s, call, Made(Data(id)))
    case Offer(call) =>
      var c := s.calls[call];
      var t := To(s, call, Offered);
      if c.user in s.table then t
      else t.(table := s.table[c.user := Seal(Master, KeyBytes(c.stage.key), 1)])
    case ReadBack(call) => Adopt(s, call)
    case Encrypt(call, text) =>
      var c := s.calls[call];
      s.(secrets := s.secrets + {Secret(c.user, text, Seal(c.stage.key, Credential(text), 2))})
    case ClearCache(process) =>
      s.(caches := map p | p in s.caches && p.0 != process :: s.caches[p])
  }

  const START := State(map[], map[], map[], {})

  function Run(steps: seq<Step>): Option<State>
    decreases |steps|
  {
    if steps == [] then Some(START)
    else
      match Run(steps[..|steps| - 1])
      case None => None
      case Some(mid) => if Enabled(mid, steps[|steps| - 1]) then Some(Apply(mid, steps[|steps| - 1])) else None
  }

  // ------------------------------------------------------------- invariant

  /** The user's one data key, once stored. */
  ghost predicate IsKeyOf(s: State, user: User, key: Key) {
    user in s.table && Unwrap(s.table[user]) == Some(key)
  }

  ghost predicate Inv(s: State) {
    && (forall user :: user in s.table ==> Unwrap(s.table[user]).Some?)
    && (forall p :: p in s.caches ==> IsKeyOf(s, p.1, s.caches[p]))
    && (forall c :: c in s.calls && s.calls[c].stage.Done? ==> IsKeyOf(s, s.calls[c].user, s.calls[c].stage.key))
    && (forall c :: c in s.calls && s.calls[c].stage.Offered? ==> s.calls[c].user in s.table)
    && (forall x :: x in s.secrets ==> UnderItsKey(s, x))
  }

  predicate UnderItsKey(s: State, x: Secret) {
    && x.user in s.table && Unwrap(s.table[x.user]).Some?
    && x.encoded == Seal(Unwrap(s.table[x.user]).value, Credential(x.text), 2)
  }

  /** Rows are inserted and never overwritten. */
  lemma RowsStay(s: State, step: Step)
    requires Enabled(s, step)
    ensures forall user :: user in s.table ==> user in Apply(s, step).table && Apply(s, step).table[user] == s.table[user]
  {
  }

  lemma StepKeeps(s: State, step: Step)
    requires Inv(s) && Enabled(s, step)
    ensures Inv(Apply(s, step))
  {
    RowsStay(s, step);
  }

  lemma {:induction false} RunKeeps(steps: seq<Step>)
    requires Run(steps).Some?
    ensures Inv(Run(steps).value)
    decreases |steps|
  {
    if steps != [] {
      RunKeeps(steps[..|steps| - 1]);
      StepKeeps(Run(steps[..|steps| - 1]).value, steps[|steps| - 1]);
    }
  }

  // ------------------------------------------------------------- theorems

  /** The stored key never changes once written. */
  lemma {:induction false} StoredKeyIsFinal(steps: seq<Step>, n: nat, user: User)
    requires n <= |steps| && Run(steps).Some? && Run(steps[..n]).Some? && user in Run(steps[..n]).value.table
    ensures user in Run(steps).value.table && Run(steps).value.table[user] == Run(steps[..n]).value.table[user]
    decreases |steps|
  {
    if n < |steps| {
      var init := steps[..|steps| - 1];
      assert init[..n] == steps[..n];
      StoredKeyIsFinal(init, n, user);
      RowsStay(Run(init).value, steps[|steps| - 1]);
    } else {
      assert steps[..n] == steps;
    }
  }

  /** Whoever wins the race, every process ends up with the stored key. */
  lemma EveryCacheAgrees(steps: seq<Step>, p: Process, q: Process, user: User)
    requires Run(steps).Some?
    requires (p, user) in Run(steps).value.caches && (q, user) in Run(steps).value.caches
    ensures Run(steps).value.caches[(p, user)] == Run(steps).value.caches[(q, user)]
    ensures IsKeyOf(Run(steps).value, user, Run(steps).value.caches[(p, user)])
  {
    RunKeeps(steps);
    assert IsKeyOf(Run(steps).value, (p, user).1, Run(steps).value.caches[(p, user)]);
    assert IsKeyOf(Run(steps).value, (q, user).1, Run(steps).value.caches[(q, user)]);
  }

  /**
   * What any process sealed for a user, the key of any finished call of any process opens again,
   * and no other key does; and that key still opens the values sealed before there were data keys.
   */
  lemma DecryptsEverywhere(steps: seq<Step>, x: Secret, call: nat)
    requires Run(steps).Some? && x in Run(steps).value.secrets
    requires call in Run(steps).value.calls && Run(steps).value.calls[call].user == x.user
    requires Run(steps).value.calls[call].stage.Done?
    ensures var key := Run(steps).value.calls[call].stage.key;
            && (forall other: Key :: Decrypt(other, x.encoded) == Ok(Credential(x.text)) <==> other == key)
            && (forall text: string :: Decrypt(key, Seal(Master, Credential(text), 1)) == Ok(Credential(text)))
  {
    RunKeeps(steps);
  }

  // ------------------------------------------------------ one call in place

  class KeyTable {
    var rows: map<User, Encoded>

    ghost predicate Valid()
      reads this
    {
      forall user :: user in rows ==> Unwrap(rows[user]).Some?
    }

    constructor ()
      ensures Valid() && rows == map[]
    {
      rows := map[];
    }

    /** Insert, doing nothing on conflict. */
    method InsertIfAbsent(user: User, encoded: Encoded)
      requires Valid() && Unwrap(encoded).Some?
      modifies this
      ensures Valid() && rows == if user in old(rows) then old(rows) else old(rows)[user := encoded]
    {
      if user !in rows {
        rows := rows[user := encoded];
      }
    }
  }

  class Cache {
    var keys: map<User, Key>

    ghost predicate Agrees(table: KeyTable)
      reads this, table
    {
      forall user :: user in keys ==> user in table.rows && Unwrap(table.rows[user]) == Some(keys[user])
    }

    constructor ()
      ensures keys == map[]
    {
      keys := map[];
    }

    /** `rival` is what another process inserts between this call's first look and its own insert. */
    method DataKeyFor(table: KeyTable, user: User, proposal: nat, rival: Option<Key>) returns (key: Key)
      requires table.Valid() && Agrees(table)
      modifies this, table
      ensures table.Valid() && Agrees(table)
      ensures user in table.rows && Unwrap(table.rows[user]) == Some(key) && user in keys && keys[user] == key
      ensures forall u :: u in old(table.rows) ==> u in table.rows && table.rows[u] == old(table.rows)[u]
      ensures keys == old(keys)[user := key] && table.rows.Keys == old(table.rows).Keys + {user}
      ensures user !in old(table.rows) ==> key == if rival.Some? then rival.value else Data(proposal)
    {
      if user in keys {
        return keys[user];
      }
      if user in table.rows {
        key := Unwrap(table.rows[user]).value;
        keys := keys[user := key];
        return;
      }
      if rival.Some? {
        table.InsertIfAbsent(user, Seal(Master, KeyBytes(rival.value), 1));
      }
      table.InsertIfAbsent(user, Seal(Master, KeyBytes(Data(proposal)), 1));
      key := Unwrap(table.rows[user]).value;
      keys := keys[user := key];
    }
  }
}
