/** The typed face of rc-store: eight tables that the state modules read and write.
    `KvStore` shows that one sorted byte-keyed database behaves like the seven of them under the state root. */
module Store {
  import opened Types
  import Rules

  class Store {
    var participants: map<Id, Participant>
    var settlements: map<Id, SettlementRecord>
    var balances: map<Id, Balance>
    var escrows: map<Id, Escrow>
    var disputes: map<Id, Dispute>
    var anchors: map<Id, AnchorRecord>
    var nonces: map<Id, u64>
    var blocks: map<u64, Block>
    var latestHeight: Option<u64>

    constructor ()
      ensures Image() == Ledger(Tables(map[], map[], map[], map[], map[], map[]), map[])
      ensures blocks == map[] && latestHeight == None
    {
      participants, settlements, balances, escrows, disputes := map[], map[], map[], map[], map[];
      anchors, nonces, blocks, latestHeight := map[], map[], map[], None;
    }

    function State(): Tables
      reads this
    {
      Tables(participants, settlements, balances, escrows, disputes, anchors)
    }

    function Image(): Ledger
      reads this
    {
      Ledger(State(), nonces)
    }

    function Height(): u64
      reads this
    {
      if latestHeight.Some? then latestHeight.value else 0
    }

    method GetParticipant(id: Id) returns (r: Option<Participant>)
      ensures r == Lookup(participants, id)
    {
      r := Lookup(participants, id);
    }

    method SetParticipant(id: Id, p: Participant)
      modifies `participants
      ensures participants == old(participants)[id := p]
    {
      participants := participants[id := p];
    }

    method SetSettlement(id: Id, record: SettlementRecord)
      modifies `settlements
      ensures settlements == old(settlements)[id := record]
    {
      settlements := settlements[id := record];
    }

    method GetBalance(owner: Id) returns (b: Balance)
      ensures b == Rules.BalanceOf(balances, owner)
    {
      var found := Lookup(balances, owner);
      match found {
        case Some(balance) => b := balance;
        case None => b := Balance(owner, 0, 0);
      }
    }

    method SetBalance(owner: Id, b: Balance)
      modifies `balances
      ensures balances == old(balances)[owner := b]
    {
      balances := balances[owner := b];
    }

    method GetEscrow(id: Id) returns (r: Option<Escrow>)
      ensures r == Lookup(escrows, id)
    {
      r := Lookup(escrows, id);
    }

    method SetEscrow(id: Id, e: Escrow)
      modifies `escrows
      ensures escrows == old(escrows)[id := e]
    {
      escrows := escrows[id := e];
    }

    method GetDispute(id: Id) returns (r: Option<Dispute>)
      ensures r == Lookup(disputes, id)
    {
      r := Lookup(disputes, id);
    }

    method SetDispute(id: Id, d: Dispute)
      modifies `disputes
      ensures disputes == old(disputes)[id := d]
    {
      disputes := disputes[id := d];
    }

    method GetNonce(sender: Id) returns (n: u64)
      ensures n == Image().Nonce(sender)
    {
      n := if sender in nonces then nonces[sender] else 0;
    }

    method SetNonce(sender: Id, nonce: u64)
      modifies `nonces
      ensures nonces == old(nonces)[sender := nonce]
    {
      nonces := nonces[sender := nonce];
    }

    method GetAnchor(id: Id) returns (r: Option<AnchorRecord>)
      ensures r == Lookup(anchors, id)
    {
      r := Lookup(anchors, id);
    }

    method SetAnchor(id: Id, a: AnchorRecord)
      modifies `anchors
      ensures anchors == old(anchors)[id := a]
    {
      anchors := anchors[id := a];
    }

    /** The latest height is whatever height was stored last, even if it is a lower one. */
    method PutBlock(block: Block)
      modifies `blocks, `latestHeight
      ensures blocks == old(blocks)[block.header.height := block]
      ensures latestHeight == Some(block.header.height)
    {
      blocks := blocks[block.header.height := block];
      latestHeight := Some(block.header.height);
    }

    method GetBlock(height: u64) returns (r: Option<Block>)
      ensures r == Lookup(blocks, height)
    {
      r := Lookup(blocks, height);
    }

    method GetLatestHeight() returns (height: u64)
      ensures height == Height()
    {
      height := if latestHeight.Some? then latestHeight.value else 0;
    }
  }
}
