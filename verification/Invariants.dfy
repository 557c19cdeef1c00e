/** The invariant of every reachable state, and how the shared steps keep it: every stored stream is
    sound, the pool covers what it owes, and the indexes mirror the record store. */
module Invariants {
  import opened Prelude
  import opened Streams
  import opened TokenBank
  import opened Storage
  import opened Ledger

  // ---- what the pool owes ----

  /** The sum, over the stored live streams paying in `token`, of deposit minus withdrawn. */
  ghost function Owed(streams: map<int, Stream>, token: Address): int {
    if exists id :: id in streams then
      var id :| id in streams;
      ClaimOn(streams[id], token) + Owed(streams - {id}, token)
    else
      0
  }

  ghost function ClaimOn(s: Stream, token: Address): int {
    if s.token == token then s.Claim() else 0
  }

  /** The sum does not depend on the order in which streams are picked. */
  lemma {:induction false} OwedRemove(streams: map<int, Stream>, id: int, token: Address)
    requires id in streams
    ensures Owed(streams, token) == ClaimOn(streams[id], token) + Owed(streams - {id}, token)
    decreases streams
  {
    var first :| first in streams
      && Owed(streams, token) == ClaimOn(streams[first], token) + Owed(streams - {first}, token);
    if first != id {
      OwedRemove(streams - {first}, id, token);
      OwedRemove(streams - {id}, first, token);
      assert streams - {first} - {id} == streams - {id} - {first};
    }
  }

  lemma OwedSave(streams: map<int, Stream>, s: Stream, token: Address)
    ensures Owed(streams[s.id := s], token)
            == Owed(streams, token) + ClaimOn(s, token) - (if s.id in streams then ClaimOn(streams[s.id], token) else 0)
  {
    OwedRemove(streams[s.id := s], s.id, token);
    if s.id in streams {
      OwedRemove(streams, s.id, token);
      assert streams[s.id := s] - {s.id} == streams - {s.id};
    } else {
      assert streams[s.id := s] - {s.id} == streams;
    }
  }

  lemma {:induction false} OwedCovers(streams: map<int, Stream>, token: Address, now: int)
    requires forall id :: id in streams ==> streams[id].Sound(now)
    ensures 0 <= Owed(streams, token)
    ensures forall id :: id in streams ==> ClaimOn(streams[id], token) <= Owed(streams, token)
    decreases streams
  {
    forall id | id in streams
      ensures 0 <= ClaimOn(streams[id], token) <= Owed(streams, token) && 0 <= Owed(streams, token)
    {
      ClaimNonNegative(streams[id], now);
      OwedRemove(streams, id, token);
      OwedCovers(streams - {id}, token, now);
    }
  }

  // ---- the invariant ----

  ghost predicate StreamsSound(streams: map<int, Stream>, now: int) {
    forall id :: id in streams ==> streams[id].id == id && streams[id].Sound(now)
  }

  /** For each token the contract holds at least what it owes. */
  ghost predicate Solvent(bank: Bank, streams: map<int, Stream>) {
    forall token :: Owed(streams, token) <= BalanceOf(bank, token, Contract)
  }

  /** Each address lists, once each, exactly the stored streams it sends. */
  ghost predicate SendersExact(d: Directory, streams: map<int, Stream>) {
    forall a :: NoDuplicates(Listed(d, a))
                && forall id :: id in Listed(d, a) <==> id in streams && streams[id].sender == a
  }

  ghost predicate RecipientsExact(d: Directory, streams: map<int, Stream>) {
    forall a :: NoDuplicates(Listed(d, a))
                && forall id :: id in Listed(d, a) <==> id in streams && streams[id].recipient == a
  }

  ghost predicate Indexed(st: State) {
    && SendersExact(st.bySender, st.streams)
    && RecipientsExact(st.byRecipient, st.streams)
    && (forall id :: id in st.streams ==> id in st.created)
  }

  /** Sound streams, solvent for every token, and admin values in range. */
  ghost predicate Funded(st: State) {
    && 0 <= st.now <= U64_MAX
    && StreamsSound(st.streams, st.now)
    && Solvent(st.bank, st.streams)
    && 0 <= st.cfg.feeBps <= 10_000
    && (st.paused ==> 0 < st.pauseExpiry)
  }

  /** A global pause is in force. */
  predicate Stopped(st: State) {
    st.paused && st.now < st.pauseExpiry
  }

  ghost predicate Inv(st: State) {
    Funded(st) && Indexed(st)
  }

  /** The clock stands still, no global pause begins or ends early, and neither used nonces nor the global
      index lose an entry. */
  predicate Onward(st: State, st': State) {
    && st'.now == st.now
    && (st'.paused ==> st.paused && st'.pauseExpiry == st.pauseExpiry)
    && (Stopped(st) ==> st'.paused && st'.pauseExpiry == st.pauseExpiry)
    && st.nonces <= st'.nonces
    && BatchNoncesGrow(st, st')
    && st.created <= st'.created
  }

  /** No sender's batch nonce ever goes back. */
  predicate BatchNoncesGrow(st: State, st': State) {
    forall a :: a in st.batchNonces ==> a in st'.batchNonces && st.batchNonces[a] <= st'.batchNonces[a]
  }

  /** The state stays funded, and exact indexes stay exact. */
  ghost predicate Keeps(st: State, st': State) {
    Funded(st') && (Indexed(st) ==> Indexed(st')) && Onward(st, st')
  }

  /** The same, for a step that creates no stream. */
  ghost predicate KeepsAll(st: State, st': State) {
    Keeps(st, st') && st'.created == st.created
  }

  /** A contract just deployed, on any chain. */
  ghost predicate Genesis(st: State) {
    && 0 <= st.now <= U64_MAX
    && st.streams == map[] && st.bySender == map[] && st.byRecipient == map[] && st.created == []
    && (forall token :: 0 <= BalanceOf(st.bank, token, Contract))
    && 0 <= st.cfg.feeBps <= 10_000
    && !st.paused
  }

  lemma GenesisInv(st: State)
    requires Genesis(st)
    ensures Inv(st)
  {
  }

  // ---- shared steps keep it ----

  /** The pool holds at least the claim of any one stream. */
  lemma PoolCovers(st: State, id: int)
    requires Funded(st) && id in st.streams
    ensures 0 <= st.streams[id].Claim() <= BalanceOf(st.bank, st.streams[id].token, Contract)
  {
    OwedCovers(st.streams, st.streams[id].token, st.now);
    ClaimNonNegative(st.streams[id], st.now);
    assert ClaimOn(st.streams[id], st.streams[id].token) == st.streams[id].Claim();
    assert Owed(st.streams, st.streams[id].token) <= BalanceOf(st.bank, st.streams[id].token, Contract);
  }

  /** A stored stream is replaced by a sound one that owes at least `spent` less. */
  lemma SaveFunded(st: State, s: Stream, bank: Bank, spent: int)
    requires Funded(st) && s.id in st.streams && s.Sound(st.now)
    requires s.token == st.streams[s.id].token
    requires SpendsAtMost(st.bank, bank, s.token, spent) && s.Claim() + spent <= st.streams[s.id].Claim()
    ensures Funded(Save(st.(bank := bank), s))
  {
    forall token ensures Owed(st.streams[s.id := s], token) <= BalanceOf(bank, token, Contract) {
      OwedSave(st.streams, s, token);
      assert Owed(st.streams, token) <= BalanceOf(st.bank, token, Contract);
      assert BalanceOf(st.bank, token, Contract)
        - (if token == s.token then spent else 0) <= BalanceOf(bank, token, Contract);
    }
  }

  lemma SaveIndexed(st: State, s: Stream)
    requires Indexed(st) && s.id in st.streams
    requires s.sender == st.streams[s.id].sender && s.recipient == st.streams[s.id].recipient
    ensures Indexed(Save(st, s))
  {
  }

  lemma SaveInv(st: State, s: Stream, bank: Bank, spent: int)
    requires Funded(st) && s.id in st.streams && s.Sound(st.now)
    requires s.token == st.streams[s.id].token
    requires s.sender == st.streams[s.id].sender && s.recipient == st.streams[s.id].recipient
    requires SpendsAtMost(st.bank, bank, s.token, spent) && s.Claim() + spent <= st.streams[s.id].Claim()
    ensures KeepsAll(st, Save(st.(bank := bank), s))
  {
    SaveFunded(st, s, bank, spent);
    if Indexed(st) { SaveIndexed(st.(bank := bank), s); }
  }

  lemma EraseFunded(st: State, id: int, s: Stream, bank: Bank)
    requires Funded(st) && id in st.streams
    requires SpendsAtMost(st.bank, bank, st.streams[id].token, st.streams[id].Claim())
    ensures Funded(Erase(st.(bank := bank), id, s))
  {
    var gone := st.streams[id];
    forall token ensures Owed(st.streams - {id}, token) <= BalanceOf(bank, token, Contract) {
      OwedRemove(st.streams, id, token);
      assert Owed(st.streams, token) <= BalanceOf(st.bank, token, Contract);
      assert BalanceOf(st.bank, token, Contract) - (if token == gone.token then gone.Claim() else 0)
             <= BalanceOf(bank, token, Contract);
    }
  }

  lemma UnlistSender(d: Directory, streams: map<int, Stream>, id: int)
    requires SendersExact(d, streams) && id in streams
    ensures SendersExact(Unlist(d, streams[id].sender, id), streams - {id})
  {
    var a := streams[id].sender;
    assert id in Listed(d, a);
    WithoutExact(d[a], id);
    forall b ensures NoDuplicates(Listed(Unlist(d, a, id), b))
                     && forall x :: x in Listed(Unlist(d, a, id), b) <==> x in streams - {id} && streams[x].sender == b
    {
      assert NoDuplicates(Listed(d, b));
      if b != a {
        assert Listed(Unlist(d, a, id), b) == Listed(d, b);
      }
    }
  }

  lemma UnlistRecipient(d: Directory, streams: map<int, Stream>, id: int)
    requires RecipientsExact(d, streams) && id in streams
    ensures RecipientsExact(Unlist(d, streams[id].recipient, id), streams - {id})
  {
    var a := streams[id].recipient;
    assert id in Listed(d, a);
    WithoutExact(d[a], id);
    forall b ensures NoDuplicates(Listed(Unlist(d, a, id), b))
                     && forall x :: x in Listed(Unlist(d, a, id), b)
                                    <==> x in streams - {id} && streams[x].recipient == b
    {
      assert NoDuplicates(Listed(d, b));
      if b != a {
        assert Listed(Unlist(d, a, id), b) == Listed(d, b);
      }
    }
  }

  lemma ListSender(d: Directory, streams: map<int, Stream>, s: Stream)
    requires SendersExact(d, streams) && s.id !in streams
    ensures SendersExact(List(d, s.sender, s.id), streams[s.id := s])
  {
    var d' := List(d, s.sender, s.id);
    forall b ensures NoDuplicates(Listed(d', b))
                     && forall x :: x in Listed(d', b) <==> x in streams[s.id := s] && streams[s.id := s][x].sender == b
    {
      assert NoDuplicates(Listed(d, b));
      assert s.id !in Listed(d, b);
      if b == s.sender {
        assert Listed(d', b) == Listed(d, b) + [s.id];
      } else {
        assert Listed(d', b) == Listed(d, b);
      }
    }
  }

  lemma ListRecipient(d: Directory, streams: map<int, Stream>, s: Stream)
    requires RecipientsExact(d, streams) && s.id !in streams
    ensures RecipientsExact(List(d, s.recipient, s.id), streams[s.id := s])
  {
    var d' := List(d, s.recipient, s.id);
    forall b ensures NoDuplicates(Listed(d', b))
                     && forall x :: x in Listed(d', b)
                                    <==> x in streams[s.id := s] && streams[s.id := s][x].recipient == b
    {
      assert NoDuplicates(Listed(d, b));
      assert s.id !in Listed(d, b);
      if b == s.recipient {
        assert Listed(d', b) == Listed(d, b) + [s.id];
      } else {
        assert Listed(d', b) == Listed(d, b);
      }
    }
  }

  lemma EraseInv(st: State, id: int, s: Stream, bank: Bank)
    requires Funded(st) && id in st.streams
    requires s.sender == st.streams[id].sender && s.recipient == st.streams[id].recipient
    requires SpendsAtMost(st.bank, bank, st.streams[id].token, st.streams[id].Claim())
    ensures KeepsAll(st, Erase(st.(bank := bank), id, s))
  {
    EraseFunded(st, id, s, bank);
    if Indexed(st) {
      UnlistSender(st.bySender, st.streams, id);
      UnlistRecipient(st.byRecipient, st.streams, id);
    }
  }

  /** A new sound stream, paid for; an id that is already stored loses its old claim. */
  lemma EnrollFunded(st: State, s: Stream, bank: Bank)
    requires Funded(st) && s.Sound(st.now)
    requires SpendsAtMost(st.bank, bank, s.token, -s.Claim())
    requires Enroll(st.(bank := bank), s).Ok?
    ensures Funded(Enroll(st.(bank := bank), s).value)
  {
    forall token ensures Owed(st.streams[s.id := s], token) <= BalanceOf(bank, token, Contract) {
      OwedSave(st.streams, s, token);
      if s.id in st.streams { ClaimNonNegative(st.streams[s.id], st.now); }
      assert Owed(st.streams, token) <= BalanceOf(st.bank, token, Contract);
      assert BalanceOf(st.bank, token, Contract)
        - (if token == s.token then -s.Claim() else 0) <= BalanceOf(bank, token, Contract);
    }
  }

  lemma EnrollIndexed(st: State, s: Stream)
    requires Indexed(st) && s.id !in st.streams && Enroll(st, s).Ok?
    ensures Indexed(Enroll(st, s).value)
  {
    ListSender(st.bySender, st.streams, s);
    ListRecipient(st.byRecipient, st.streams, s);
  }

  /** A stored id enrolled again is listed twice or under two senders: the index cannot be exact. */
  lemma EnrollCollides(st: State, s: Stream)
    requires Indexed(st) && s.id in st.streams && Enroll(st, s).Ok?
    ensures !Indexed(Enroll(st, s).value)
  {
    var st' := Enroll(st, s).value;
    var a := st.streams[s.id].sender;
    assert s.id in Listed(st.bySender, a);
    if a == s.sender {
      var was := Listed(st.bySender, a);
      var i :| 0 <= i < |was| && was[i] == s.id;
      assert Listed(st'.bySender, a) == was + [s.id];
      assert Listed(st'.bySender, a)[i] == Listed(st'.bySender, a)[|was|];
      assert !NoDuplicates(Listed(st'.bySender, a));
    } else {
      assert Listed(st'.bySender, a) == Listed(st.bySender, a);
      assert s.id in Listed(st'.bySender, a) && st'.streams[s.id].sender != a;
    }
  }

  lemma GateInv(st: State)
    ensures Gate(st).Ok? ==> (Funded(st) ==> Funded(Gate(st).value)) && (Indexed(st) ==> Indexed(Gate(st).value))
    ensures Gate(st).Ok? ==>
            Gate(st).value == st.(paused := false, pauseExpiry := if st.paused then 0 else st.pauseExpiry)
    ensures Gate(st).Err? ==> Gate(st).error == ContractPaused
    ensures Funded(st) ==> (Gate(st).Err? <==> Stopped(st))
  {
  }
}
