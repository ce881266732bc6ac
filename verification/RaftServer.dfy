/** The server as the code runs it: objects updated in place, one method for each locked
    section. Every method is tied to the function in RaftNode.dfy that the cluster proofs use,
    and says what it leaves on disk. */
module RaftServer {
  import opened Options
  import opened RaftTypes
  import opened RaftLog
  import opened RaftNode

  /** src/raft/Log.cpp */
  class Log {
    var entries: seq<Entry>
    var lastIncludedIndex: nat
    var lastIncludedTerm: nat

    ghost function State(): LogState
      reads this
    {
      LogState(entries, lastIncludedIndex, lastIncludedTerm)
    }

    constructor (es: seq<Entry>)
      ensures State() == LogState(es, 0, 0)
    {
      entries := es;
      lastIncludedIndex, lastIncludedTerm := 0, 0;
    }

    method Append(e: Entry)
      modifies this
      ensures State() == old(State()).(entries := old(entries) + [e])
    {
      entries := entries + [e];
    }

    /** Merging a log with itself does nothing; otherwise the loop keeps what agrees, cuts at
        the first disagreement and appends the rest. */
    method MergeWith(other: Log)
      modifies this
      ensures this == other ==> State() == old(State())
      ensures this != other ==> State() == old(State()).(entries := Merge(old(entries), old(other.entries)))
    {
      if this == other || other.entries == [] {
        return;
      }
      var i := 0;
      while i < |other.entries|
        invariant 0 <= i <= |other.entries|
        invariant entries == old(entries)
        invariant MergeFrom(entries, other.entries, i) == Merge(entries, other.entries)
      {
        var e := other.entries[i];
        var p := Position(entries, e.index);
        if p == |entries| {
          break;
        }
        if entries[p] != e {
          entries := entries[..p];
          break;
        }
        i := i + 1;
      }
      entries := entries + other.entries[i..];
    }

    method Trim(index: nat, term: nat)
      modifies this
      ensures State() == TrimPrefix(old(State()), index, term)
    {
      var p := Position(entries, index);
      lastIncludedIndex, lastIncludedTerm := index, term;
      if p == |entries| {
        entries := [];
      } else {
        entries := entries[p + 1..];
      }
    }

    method SetLastIncluded(index: nat, term: nat)
      modifies this
      ensures State() == LogState(old(entries), index, term)
    {
      lastIncludedIndex, lastIncludedTerm := index, term;
    }

    method Clear()
      modifies this
      ensures State() == old(State()).(entries := [])
    {
      entries := [];
    }
  }

  /** A persister whose load returns the last save. */
  class Persister {
    var saved: Durable

    constructor ()
      ensures saved == Durable(0, None, [], "", 0, 0)
    {
      saved := Durable(0, None, [], "", 0, 0);
    }

    method Save(d: Durable)
      modifies this
      ensures saved == d
    {
      saved := d;
    }

    method Load() returns (d: Durable)
      ensures d == saved
    {
      d := saved;
    }
  }

  /** src/include/raft/RaftImpl.hpp, with the fields of src/include/raft/Raft.hpp */
  class RaftImpl {
    const selfId: ServerId
    const clusterSize: nat
    const mainLog: Log
    const persister: Persister
    var killed: bool
    var pendingSnapshot: bool
    var role: Role
    var currentTerm: nat
    var votedFor: Option<ServerId>
    var commitIndex: nat
    var lastApplied: nat
    var nextIndex: map<ServerId, nat>
    var matchIndex: map<ServerId, nat>
    var votesGranted: nat
    var requestVoteArg: RequestVoteArg
    var shouldStartElection: map<ServerId, bool>
    var snapshotData: string
    var lastIncludedIndex: nat
    var lastIncludedTerm: nat

    ghost function State(): Node
      reads this, mainLog
    {
      Node(selfId, clusterSize, killed, pendingSnapshot, role, currentTerm, votedFor, mainLog.State(), commitIndex,
           lastApplied, nextIndex, matchIndex, votesGranted, requestVoteArg, shouldStartElection, snapshotData,
           lastIncludedIndex, lastIncludedTerm)
    }

    /** A server started on the full member list, itself included, reads back what its disk
        holds. The cluster size is the length of that list in eight bits. */
    constructor (members: seq<ServerId>, self: ServerId, disk: Persister)
      ensures State() == Boot(self, Names(members), disk.saved).(clusterSize := |members| % 256)
      ensures Distinct(members) ==> State() == Boot(self, Names(members), disk.saved)
      ensures persister == disk && fresh(mainLog)
    {
      selfId := self;
      clusterSize := |members| % 256;
      persister := disk;
      mainLog := new Log([]);
      killed, pendingSnapshot, role := false, false, Follower;
      currentTerm, votedFor, commitIndex, lastApplied := 0, None, 0, 0;
      nextIndex, matchIndex, shouldStartElection := map[], map[], map[];
      votesGranted, requestVoteArg := 0, RequestVoteArg(ServerId(""), 0, 0, 0);
      snapshotData, lastIncludedIndex, lastIncludedTerm := "", 0, 0;
      new;
      hide Filled;
      AddPeers(members);
      if Distinct(members) {
        DistinctSize(members);
      }
      var saved := disk.Load();
      ReadPersist(saved);
    }

    method AddPeers(members: seq<ServerId>)
      requires nextIndex.Keys == matchIndex.Keys == shouldStartElection.Keys == {}
      modifies this`nextIndex, this`matchIndex, this`shouldStartElection
      ensures nextIndex == Filled<nat>(Names(members) - {selfId}, 1)
      ensures matchIndex == Filled<nat>(Names(members) - {selfId}, 0)
      ensures shouldStartElection == Filled(Names(members) - {selfId}, false)
    {
      hide Filled;
      ghost var peers := {};
      for i := 0 to |members|
        invariant peers == Names(members[..i]) - {selfId}
        invariant nextIndex.Keys == matchIndex.Keys == shouldStartElection.Keys == peers
        invariant forall p :: p in peers ==> nextIndex[p] == 1 && matchIndex[p] == 0 && !shouldStartElection[p]
      {
        assert Names(members[..i + 1]) == Names(members[..i]) + {members[i]};
        if members[i] != selfId {
          nextIndex := nextIndex[members[i] := 1];
          matchIndex := matchIndex[members[i] := 0];
          shouldStartElection := shouldStartElection[members[i] := false];
          peers := peers + {members[i]};
        }
      }
      assert members[..|members|] == members;
      IsFilled<nat>(nextIndex, peers, 1);
      IsFilled<nat>(matchIndex, peers, 0);
      IsFilled(shouldStartElection, peers, false);
    }

    method Persist()
      modifies persister
      ensures State() == old(State())
      ensures persister.saved == Persisted(State())
    {
      persister.Save(
        Durable(currentTerm, votedFor, mainLog.entries, snapshotData, lastIncludedIndex, lastIncludedTerm));
    }

    method ReadPersist(d: Durable)
      modifies this, mainLog
      ensures old(killed || pendingSnapshot) ==> State() == old(State())
      ensures !old(killed || pendingSnapshot) ==>
        State() == old(State()).(
          currentTerm := d.currentTerm, votedFor := d.votedFor,
          log := LogState(Merge([], d.entries), d.lastIncludedIndex, d.lastIncludedTerm),
          lastIncludedIndex := d.lastIncludedIndex, lastIncludedTerm := d.lastIncludedTerm,
          snapshotData := d.snapshotData, pendingSnapshot := d.snapshotData != "")
    {
      hide Merge;
      if killed || pendingSnapshot {
        return;
      }
      currentTerm, votedFor := d.currentTerm, d.votedFor;
      LoadLog(d);
      lastIncludedIndex, lastIncludedTerm := d.lastIncludedIndex, d.lastIncludedTerm;
      snapshotData := d.snapshotData;
      if d.snapshotData == "" {
        return;
      }
      pendingSnapshot := true;
    }

    method LoadLog(d: Durable)
      modifies mainLog
      ensures mainLog.State() == LogState(Merge([], d.entries), d.lastIncludedIndex, d.lastIncludedTerm)
    {
      mainLog.Clear();
      var saved := new Log(d.entries);
      mainLog.MergeWith(saved);
      mainLog.SetLastIncluded(d.lastIncludedIndex, d.lastIncludedTerm);
    }

    method StepDown(term: nat) returns (stepped: bool)
      modifies this, persister
      ensures stepped == (term > old(currentTerm))
      ensures State() == BecameFollower(old(State()), term)
      ensures persister.saved == BecameFollowerDisk(old(State()), old(persister.saved), term)
    {
      stepped := term > currentTerm;
      if stepped {
        currentTerm, role, votedFor := term, Follower, None;
        Persist();
      }
    }

    method RequestVoteHandler(arg: RequestVoteArg) returns (reply: RequestVoteReply)
      modifies this, persister
      ensures (State(), reply) == OnRequestVote(old(State()), arg)
      ensures reply.voteGranted <==>
        && !old(killed) && arg.term >= old(currentTerm)
        && (arg.term > old(currentTerm) || old(votedFor) == None || old(votedFor) == Some(arg.candidateId))
        && var last := old(mainLog.State());
        arg.lastLogTerm > LastTerm(last) || (arg.lastLogTerm == LastTerm(last) && arg.lastLogIndex >= LastIndex(last))
      ensures persister.saved == RequestVoteDisk(old(State()), old(persister.saved), arg)
    {
      if killed || arg.term < currentTerm {
        return RequestVoteReply(false, currentTerm);
      }
      var _ := StepDown(arg.term);
      if votedFor == None || votedFor == Some(arg.candidateId) {
        var l := LogState(mainLog.entries, mainLog.lastIncludedIndex, mainLog.lastIncludedTerm);
        if UpToDate(l, arg.lastLogIndex, arg.lastLogTerm) {
          votedFor, role := Some(arg.candidateId), Follower;
          Persist();
          return RequestVoteReply(true, currentTerm);
        }
      }
      return RequestVoteReply(false, currentTerm);
    }

    method AppendEntriesHandler(arg: AppendEntriesArg, garbage: Conflict) returns (reply: AppendEntriesReply)
      modifies this, mainLog, persister
      ensures (State(), reply) == OnAppendEntries(old(State()), arg, garbage)
      ensures persister.saved == AppendEntriesDisk(old(State()), old(persister.saved), arg)
    {
      hide Merge, Position;
      if killed || pendingSnapshot || arg.term < currentTerm {
        return AppendEntriesReply(false, currentTerm, garbage);
      }
      var _ := StepDown(arg.term);
      var e := At(mainLog.entries, arg.prevLogIndex);
      if arg.prevLogIndex == 0 || (e.Some? && e.value.term == arg.prevLogTerm)
         || (e.None? && arg.prevLogIndex == lastIncludedIndex && arg.prevLogTerm == lastIncludedTerm) {
        TakeEntries(arg);
        return AppendEntriesReply(true, currentTerm, garbage);
      }
      var l := LogState(mainLog.entries, mainLog.lastIncludedIndex, mainLog.lastIncludedTerm);
      var hint := ConflictHint(l, arg.prevLogIndex);
      return AppendEntriesReply(false, currentTerm, hint);
    }

    /** The accepting branch: merge, follow, save, then follow the leader's commit index. */
    method TakeEntries(arg: AppendEntriesArg)
      modifies this`role, this`commitIndex, mainLog, persister
      ensures var l := old(mainLog.State()).(entries := Merge(old(mainLog.entries), arg.entries));
              State() == old(State()).(log := l, role := Follower,
                commitIndex :=
                  if arg.leaderCommit > old(commitIndex) then Min(arg.leaderCommit, LastIndex(l))
                  else old(commitIndex))
      ensures persister.saved == Persisted(State())
    {
      hide Merge;
      var incoming := new Log(arg.entries);
      mainLog.MergeWith(incoming);
      role := Follower;
      Persist();
      if arg.leaderCommit > commitIndex {
        var l := LogState(mainLog.entries, mainLog.lastIncludedIndex, mainLog.lastIncludedTerm);
        commitIndex := Min(arg.leaderCommit, LastIndex(l));
      }
    }

    method StartElection()
      modifies this, persister
      ensures State() == InitVote(old(State()))
      ensures persister.saved == if old(role) == Leader then old(persister.saved) else Persisted(State())
    {
      if role != Leader {
        Stand();
        AskForVotes();
      }
    }

    method Stand()
      modifies this`role, this`currentTerm, this`votedFor, persister
      ensures State() == old(State()).(
        role := Candidate, currentTerm := old(currentTerm) + 1, votedFor := Some(selfId))
      ensures persister.saved == Persisted(State())
    {
      role, currentTerm, votedFor := Candidate, currentTerm + 1, Some(selfId);
      Persist();
    }

    method AskForVotes()
      modifies this`requestVoteArg, this`votesGranted, this`shouldStartElection
      ensures State() == old(State()).(
        requestVoteArg := RequestVoteArg(selfId, currentTerm, LastIndex(mainLog.State()), LastTerm(mainLog.State())),
        votesGranted := 1,
        shouldStartElection := Filled(old(shouldStartElection).Keys, true))
    {
      hide Filled, LastIndex, LastTerm;
      var l := LogState(mainLog.entries, mainLog.lastIncludedIndex, mainLog.lastIncludedTerm);
      requestVoteArg := RequestVoteArg(selfId, currentTerm, LastIndex(l), LastTerm(l));
      votesGranted := 1;
      shouldStartElection := Filled(shouldStartElection.Keys, true);
    }

    method ProcessVoteReply(arg: RequestVoteArg, reply: Option<RequestVoteReply>)
      modifies this, persister
      ensures State() == OnVoteReply(old(State()), arg, reply)
      ensures persister.saved == VoteReplyDisk(old(State()), old(persister.saved), reply)
    {
      hide Filled, LastIndex;
      if killed || role != Candidate || reply.None? {
        return;
      }
      var stepped := StepDown(reply.value.term);
      if stepped || reply.value.term < currentTerm || arg.term != currentTerm || !reply.value.voteGranted {
        return;
      }
      votesGranted := votesGranted + 1;
      if votesGranted >= clusterSize / 2 + 1 {
        BecomeLeader();
      }
    }

    method BecomeLeader()
      modifies this`role, this`nextIndex, this`matchIndex
      ensures State() == old(State()).(
        role := Leader,
        nextIndex := Filled<nat>(old(nextIndex).Keys, LastIndex(mainLog.State()) + 1),
        matchIndex := Filled<nat>(old(matchIndex).Keys, 0))
    {
      hide Filled, LastIndex;
      role := Leader;
      var last := LastIndex(LogState(mainLog.entries, mainLog.lastIncludedIndex, mainLog.lastIncludedTerm));
      nextIndex := Filled<nat>(nextIndex.Keys, last + 1);
      matchIndex := Filled<nat>(matchIndex.Keys, 0);
    }

    /** The commit scan, from the end of the log down to the present commit index. */
    method AdvanceCommit()
      modifies this`commitIndex
      ensures State() == old(State()).(commitIndex := CommitScan(old(State()), LastIndex(old(mainLog.State()))))
    {
      ghost var start := State();
      var i: nat := LastIndex(LogState(mainLog.entries, mainLog.lastIncludedIndex, mainLog.lastIncludedTerm));
      while i > commitIndex && At(mainLog.entries, i).Some? && At(mainLog.entries, i).value.term == currentTerm
        invariant State() == start
        invariant CommitScan(start, i) == CommitScan(start, LastIndex(mainLog.State()))
        decreases i
      {
        var matches := CountMatches(matchIndex, i);
        if matches >= clusterSize / 2 + 1 {
          commitIndex := i;
          break;
        }
        i := i - 1;
      }
    }

    method ProcessAppendReply(peer: ServerId, arg: AppendEntriesArg, reply: Option<AppendEntriesReply>)
      modifies this, persister
      ensures State() == OnAppendReply(old(State()), peer, arg, reply)
      ensures !old(killed) && old(role) == Leader && reply.Some? && reply.value.success
              && reply.value.term == arg.term == old(currentTerm) ==>
        var reach := arg.prevLogIndex + |arg.entries|;
        matchIndex == old(matchIndex)[peer := reach] && nextIndex == old(nextIndex)[peer := reach + 1]
      ensures persister.saved == AppendReplyDisk(old(State()), old(persister.saved), reply)
    {
      if killed || role != Leader || reply.None? {
        return;
      }
      var stepped := StepDown(reply.value.term);
      if stepped || reply.value.term < currentTerm || arg.term != currentTerm {
        return;
      }
      if reply.value.success {
        nextIndex := nextIndex[peer := arg.prevLogIndex + 1 + |arg.entries|];
        matchIndex := matchIndex[peer := nextIndex[peer] - 1];
        AdvanceCommit();
      } else {
        var l := LogState(mainLog.entries, mainLog.lastIncludedIndex, mainLog.lastIncludedTerm);
        nextIndex := nextIndex[peer := Backtrack(l, reply.value.conflict)];
      }
    }

    method Start(command: Command) returns (accepted: bool)
      modifies this, mainLog, persister
      ensures accepted == CanStart(old(State()))
      ensures State() == OnStart(old(State()), command)
      ensures mainLog.entries ==
        if accepted then
          old(mainLog.entries) + [Entry(LastIndex(old(mainLog.State())) + 1, old(currentTerm), command)]
        else old(mainLog.entries)
      ensures persister.saved == if accepted then Persisted(State()) else old(persister.saved)
    {
      if killed || role != Leader || pendingSnapshot {
        return false;
      }
      var last := LastIndex(LogState(mainLog.entries, mainLog.lastIncludedIndex, mainLog.lastIncludedTerm));
      mainLog.Append(Entry(last + 1, currentTerm, command));
      Persist();
      return true;
    }

    method Snapshot(index: nat, data: string)
      modifies this, mainLog, persister
      ensures State() == OnSnapshot(old(State()), index, data)
      ensures persister.saved ==
        if SnapshotIgnored(old(State()), index) then old(persister.saved) else Persisted(State())
    {
      var l := LogState(mainLog.entries, mainLog.lastIncludedIndex, mainLog.lastIncludedTerm);
      if killed || pendingSnapshot || index < lastIncludedIndex || index > LastIndex(l) {
        return;
      }
      if index == lastIncludedIndex {
        snapshotData := data;
        Persist();
        return;
      }
      var e := At(mainLog.entries, index);
      lastIncludedIndex, lastIncludedTerm := index, if e.Some? then e.value.term else 0;
      mainLog.Trim(index, lastIncludedTerm);
      snapshotData := data;
      Persist();
    }

    method Kill()
      modifies this
      ensures State() == old(State()).(killed := true)
    {
      killed := true;
    }
  }

  /** How many servers hold the log up to `index`, the leader itself included. */
  method CountMatches(matchIndex: map<ServerId, nat>, index: nat) returns (matches: nat)
    ensures matches == 1 + |set p | p in matchIndex && matchIndex[p] >= index|
  {
    matches := 1;
    var rest := matchIndex.Keys;
    ghost var found: set<ServerId> := {};
    while rest != {}
      invariant rest <= matchIndex.Keys && rest !! found
      invariant found == set p | p in matchIndex && p !in rest && matchIndex[p] >= index
      invariant matches == 1 + |found|
      decreases |rest|
    {
      var p :| p in rest;
      rest := rest - {p};
      if matchIndex[p] >= index {
        matches := matches + 1;
        found := found + {p};
      }
    }
    assert found == set p | p in matchIndex && matchIndex[p] >= index;
  }

  lemma IsFilled<T>(m: map<ServerId, T>, keys: set<ServerId>, v: T)
    requires m.Keys == keys
    requires forall p :: p in keys ==> m[p] == v
    ensures m == Filled(keys, v)
  {
  }

  function Names(members: seq<ServerId>): set<ServerId> { set m | m in members }

  ghost predicate Distinct(members: seq<ServerId>) {
    forall i, j :: 0 <= i < j < |members| ==> members[i] != members[j]
  }

  lemma {:induction false} DistinctSize(members: seq<ServerId>)
    requires Distinct(members)
    ensures |Names(members)| == |members|
  {
    if members == [] {
      assert Names(members) == {};
    } else {
      var last := members[|members| - 1];
      var front := members[..|members| - 1];
      DistinctSize(front);
      assert last !in front;
      assert Names(members) == Names(front) + {last};
    }
  }
}
