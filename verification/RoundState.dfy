/** The per-height round state as the engine holds it: one object per height,
    updated in place.  Every method is tied to its function in Protocol. */
module RoundStates {
  import opened Blocks
  import opened Protocol

  class RoundState {
    const height: nat
    var round: nat
    var proposer: Address
    var isSelf: bool
    var ph: Phase
    var proposal: Option<Block>
    var prepares: Tally
    var commits: Tally
    var changes: map<nat, map<Address, Message>>
    var lock: Option<Lock>
    var seen: map<VoteKey, Hash>
    var faulty: set<Address>
    var timerArmed: bool
    var peerActivity: bool

    ghost function View(): Round
      reads this
    {
      Round(height, round, proposer, isSelf, ph, proposal, prepares, commits, changes, lock, seen, faulty,
            timerArmed, peerActivity)
    }

    constructor (cfg: Config, height: nat)
      requires ValidConfig(cfg)
      ensures View() == NewRound(cfg, height)
    {
      this.height := height;
      var turn := ProposerAt(cfg.members, height, 0);
      round, proposer, isSelf := 0, turn, turn == cfg.self;
      ph, proposal, lock := Idle, None, None;
      prepares, commits, changes, seen := map[], map[], map[], map[];
      faulty, timerArmed, peerActivity := {}, false, false;
    }

    /** File a verified vote.  A sender caught with a second hash loses the vote
        it had, and the second one is not counted either. */
    method Record(sm: Message) returns (accepted: bool, equivocated: bool)
      modifies this
      ensures View() == Protocol.Record(old(View()), sm).rs
      ensures accepted == Protocol.Record(old(View()), sm).accepted
      ensures equivocated == Protocol.Record(old(View()), sm).equivocated
    {
      hide AddVote, DropVote, FileVote, Protocol.Withdraw;
      var key := VoteKey(if sm.typ == Commit then 0 else sm.round, sm.typ, sm.signer);
      if key in seen {
        if seen[key] == sm.blockHash {
          return false, false;
        }
        faulty := faulty + {sm.signer};
        Withdraw(sm.typ, seen[key], sm.signer);
        return false, true;
      }
      seen := seen[key := sm.blockHash];
      File(sm);
      return true, false;
    }

    /** The tally a vote goes to. */
    method File(sm: Message)
      modifies this
      ensures View() == FileVote(old(View()), sm)
    {
      hide AddVote;
      match sm.typ {
        case Prepare => prepares := AddVote(prepares, sm.blockHash, sm);
        case Commit => commits := AddVote(commits, sm.blockHash, sm);
        case RoundChange =>
          if sm.round !in changes {
            changes := changes[sm.round := map[]];
          }
          var votes: map<Address, Message> := changes[sm.round];
          changes := changes[sm.round := votes[sm.signer := sm]];
        case _ =>
      }
    }

    method Withdraw(typ: MsgType, hash: Hash, signer: Address)
      modifies this
      ensures View() == Protocol.Withdraw(old(View()), typ, hash, signer)
    {
      match typ {
        case Prepare => prepares := DropVote(prepares, hash, signer);
        case Commit => commits := DropVote(commits, hash, signer);
        case _ =>
      }
    }

    method LockOn(block: Block, round: nat)
      modifies this
      ensures View() == old(View()).(lock := Some(Lock(block, round)))
    {
      lock := Some(Lock(block, round));
    }

    /** Walk the votes for round r in the given order, keeping the best so far. */
    method HighestLock(r: nat, order: seq<Address>) returns (best: Option<Message>)
      requires r in changes
      ensures best == Protocol.HighestLock(changes[r], order)
    {
      best := None;
      var votes := changes[r];
      for i := 0 to |order|
        invariant best == Protocol.HighestLock(votes, order[..i])
      {
        assert order[..i + 1][..i] == order[..i];
        if order[i] in votes && votes[order[i]].lockedHash != ZeroHash {
          if best.None? || votes[order[i]].lockedRound > best.value.lockedRound {
            best := Some(votes[order[i]]);
          }
        }
      }
      assert order[..|order|] == order;
    }

    method EnterRound(cfg: Config, r: nat)
      requires ValidConfig(cfg)
      modifies this
      ensures View() == Protocol.EnterRound(cfg, old(View()), r)
    {
      var turn := ProposerAt(cfg.members, height, r);
      round, proposer, isSelf := r, turn, turn == cfg.self;
      ph, proposal, prepares := Idle, None, map[];
    }
  }
}
