/**
 * The viewer's per-conversation indexes (public/app.js, `processConversation` and the
 * main-thread filter of `renderConversation`). Messages are the objects the viewer
 * decoded; the only field the viewer writes on them is the derived `hasChildren` flag.
 */
module ViewerState {
  import opened Wrappers
  import opened Records

  /** A decoded message object: its record, which is never written, and `hasChildren`. */
  class Message {
    const record: Record
    var hasChildren: bool

    constructor (record: Record)
      ensures this.record == record && !hasChildren
    {
      this.record := record;
      hasChildren := false;
    }
  }

  /** The parent a message names, when `parentUuid` is truthy (present and non-empty). */
  function ParentRef(m: Message): Option<string>
  {
    match m.record.parentUuid
    case Some(p) => if p != "" then Some(p) else None
    case None => None
  }

  /**
   * The uuid -> message map as `Map.set` leaves it after visiting `ms` in order: the later
   * of two messages with the same uuid holds the entry.
   */
  function UuidIndex(ms: seq<Message>): (index: map<string, Message>)
    ensures forall u :: u in index ==> index[u] in ms && index[u].record.uuid == u
  {
    if ms == [] then map[]
    else
      var last := ms[|ms| - 1];
      UuidIndex(ms[..|ms| - 1])[last.record.uuid := last]
  }

  /** The uuids of the messages in `ms`. */
  function Uuids(ms: seq<Message>): set<string>
  {
    set m | m in ms :: m.record.uuid
  }

  /** Every uuid of `ms` is a key of the index, and no other string is. */
  lemma {:induction false} UuidIndexKeys(ms: seq<Message>)
    ensures UuidIndex(ms).Keys == Uuids(ms)
  {
    if ms != [] {
      var init := ms[..|ms| - 1];
      UuidIndexKeys(init);
      assert ms == init + [ms[|ms| - 1]];
      assert Uuids(ms) == Uuids(init) + {ms[|ms| - 1].record.uuid};
    }
  }

  /** The entry for a uuid is the last message carrying it. */
  lemma {:induction false} UuidIndexLastWins(ms: seq<Message>, k: nat)
    requires k < |ms|
    requires forall l :: k < l < |ms| ==> ms[l].record.uuid != ms[k].record.uuid
    ensures ms[k].record.uuid in UuidIndex(ms) && UuidIndex(ms)[ms[k].record.uuid] == ms[k]
  {
    if k < |ms| - 1 {
      var init := ms[..|ms| - 1];
      UuidIndexLastWins(init, k);
    }
  }

  /** The sidechain messages of session `s`, in input order. */
  function SessionMembers(ms: seq<Message>, s: string): (members: seq<Message>)
    ensures forall x :: x in members ==> x in ms && x.record.isSidechain && x.record.sessionId == s
  {
    if ms == [] then []
    else
      var last := ms[|ms| - 1];
      SessionMembers(ms[..|ms| - 1], s) + if last.record.isSidechain && last.record.sessionId == s then [last] else []
  }

  /**
   * The sessionId -> sidechain messages map as the loop of `processConversation` builds it:
   * a sidechain message is appended to its session's list, which is created on first use.
   */
  function SidechainIndex(ms: seq<Message>): map<string, seq<Message>>
  {
    if ms == [] then map[]
    else Clustered(SidechainIndex(ms[..|ms| - 1]), ms[|ms| - 1])
  }

  /** `index` after visiting `m`: a sidechain message joins the end of its session's list. */
  function Clustered(index: map<string, seq<Message>>, m: Message): map<string, seq<Message>>
  {
    if m.record.isSidechain then
      var s := m.record.sessionId;
      index[s := (if s in index then index[s] else []) + [m]]
    else index
  }

  /** Both indexes of `ms[..i + 1]` are those of `ms[..i]` after visiting `ms[i]`. */
  lemma IndexStep(ms: seq<Message>, i: nat)
    requires i < |ms|
    ensures UuidIndex(ms[..i + 1]) == UuidIndex(ms[..i])[ms[i].record.uuid := ms[i]]
    ensures SidechainIndex(ms[..i + 1]) == Clustered(SidechainIndex(ms[..i]), ms[i])
  {
    assert ms[..i + 1][..i] == ms[..i];
  }

  /** The sessions of the sidechain messages of `ms`. */
  function SidechainSessions(ms: seq<Message>): set<string>
  {
    set m | m in ms && m.record.isSidechain :: m.record.sessionId
  }

  /**
   * The keys of the sidechain map are exactly the sessions of sidechain messages, and each
   * session's list holds that session's sidechain messages in input order.
   */
  lemma {:induction false} SidechainIndexIsClustering(ms: seq<Message>)
    ensures SidechainIndex(ms).Keys == SidechainSessions(ms)
    ensures forall s :: s in SidechainIndex(ms) ==> SidechainIndex(ms)[s] == SessionMembers(ms, s)
  {
    if ms != [] {
      var init := ms[..|ms| - 1];
      var last := ms[|ms| - 1];
      SidechainIndexIsClustering(init);
      assert ms == init + [last];
      assert SidechainSessions(ms) == SidechainSessions(init) + (if last.record.isSidechain then {last.record.sessionId} else {});
      forall s | s in SidechainIndex(ms)
        ensures SidechainIndex(ms)[s] == SessionMembers(ms, s)
      {
        if s !in SidechainIndex(init) {
          SessionMembersEmpty(init, s);
        }
      }
    }
  }

  /** A session without sidechain messages has no members. */
  lemma {:induction false} SessionMembersEmpty(ms: seq<Message>, s: string)
    requires s !in SidechainSessions(ms)
    ensures SessionMembers(ms, s) == []
  {
    if ms != [] {
      var init := ms[..|ms| - 1];
      assert ms == init + [ms[|ms| - 1]];
      assert SidechainSessions(init) <= SidechainSessions(ms);
      SessionMembersEmpty(init, s);
    }
  }

  /** `ms[k]` names `m` as its parent through the uuid index of `ms`. */
  predicate NamesAsParent(ms: seq<Message>, k: int, m: Message)
  {
    0 <= k < |ms| && ParentRef(ms[k]).Some? && ParentRef(ms[k]).value in UuidIndex(ms)
    && UuidIndex(ms)[ParentRef(ms[k]).value] == m
  }

  /** Some message of `ms` names `m` as its parent (a dangling `parentUuid` names nobody). */
  predicate HasChild(ms: seq<Message>, m: Message)
  {
    exists k :: 0 <= k < |ms| && NamesAsParent(ms, k, m)
  }

  /** The messages of `ms` whose uuid no other message of `ms` shares. */
  predicate UniqueUuids(ms: seq<Message>)
  {
    forall i, j :: 0 <= i < j < |ms| ==> ms[i].record.uuid != ms[j].record.uuid
  }

  /**
   * When uuids are unique, a message of the conversation has a child exactly when some
   * message's truthy `parentUuid` is its uuid.
   */
  lemma HasChildIffNamed(ms: seq<Message>, m: Message)
    requires UniqueUuids(ms)
    requires m in ms
    ensures HasChild(ms, m) <==> exists k :: 0 <= k < |ms| && ParentRef(ms[k]) == Some(m.record.uuid)
  {
    var i :| 0 <= i < |ms| && ms[i] == m;
    UuidIndexLastWins(ms, i);
    if exists k :: 0 <= k < |ms| && ParentRef(ms[k]) == Some(m.record.uuid) {
      var k :| 0 <= k < |ms| && ParentRef(ms[k]) == Some(m.record.uuid);
      assert NamesAsParent(ms, k, m);
    }
  }

  /** `renderConversation`'s main thread: the messages whose `isSidechain` is falsy, in order. */
  function MainThread(ms: seq<Message>): (main: seq<Message>)
    ensures |main| <= |ms|
    ensures forall x :: x in main ==> x in ms && !x.record.isSidechain
    ensures forall k :: 0 <= k < |ms| && !ms[k].record.isSidechain ==> ms[k] in main
  {
    if ms == [] then []
    else
      var last := ms[|ms| - 1];
      MainThread(ms[..|ms| - 1]) + if last.record.isSidechain then [] else [last]
  }

  /**
   * The filter keeps order: the main thread of two consecutive stretches of messages is the
   * main thread of the first followed by that of the second.
   */
  lemma {:induction false} MainThreadAppend(a: seq<Message>, b: seq<Message>)
    ensures MainThread(a + b) == MainThread(a) + MainThread(b)
    decreases |b|
  {
    if b == [] {
      assert a + b == a;
    } else {
      var init := b[..|b| - 1];
      assert (a + b)[..|a + b| - 1] == a + init;
      MainThreadAppend(a, init);
    }
  }

  /** The sidechain lists and the main thread never share a message. */
  lemma MainThreadDisjointFromSidechains(ms: seq<Message>, s: string)
    requires s in SidechainIndex(ms)
    ensures forall x :: x in SidechainIndex(ms)[s] ==> x !in MainThread(ms)
  {
    SidechainIndexIsClustering(ms);
  }

  /** Without sidechain messages the main thread is the whole conversation. */
  lemma {:induction false} MainThreadWithoutSidechains(ms: seq<Message>)
    requires forall k :: 0 <= k < |ms| ==> !ms[k].record.isSidechain
    ensures MainThread(ms) == ms
  {
    if ms != [] {
      var init := ms[..|ms| - 1];
      var last := ms[|ms| - 1];
      MainThreadWithoutSidechains(init);
      assert MainThread(ms) == init + [last];
      assert init + [last] == ms;
    }
  }

  /** The viewer's lookup tables for the conversation being shown. */
  class Viewer {
    var messageMap: map<string, Message>
    var sidechainMap: map<string, seq<Message>>

    constructor ()
      ensures messageMap == map[] && sidechainMap == map[]
    {
      messageMap := map[];
      sidechainMap := map[];
    }

    /**
     * `processConversation`: clear both maps, index every message by uuid and every
     * sidechain message under its session, then flag each message that another names as
     * its parent. Nothing but the two maps and the flags changes.
     */
    method ProcessConversation(messages: seq<Message>)
      modifies this, messages
      ensures messageMap == UuidIndex(messages)
      ensures sidechainMap == SidechainIndex(messages)
      ensures forall m :: m in messages ==> m.hasChildren == (old(m.hasChildren) || HasChild(messages, m))
    {
      IndexMessages(messages);
      FlagParents(messages);
    }

    /** The first loop of `processConversation`: both maps rebuilt from `messages`. */
    method IndexMessages(messages: seq<Message>)
      modifies this
      ensures messageMap == UuidIndex(messages)
      ensures sidechainMap == SidechainIndex(messages)
    {
      messageMap := map[];
      sidechainMap := map[];
      var i := 0;
      while i < |messages|
        invariant 0 <= i <= |messages|
        invariant messageMap == UuidIndex(messages[..i])
        invariant sidechainMap == SidechainIndex(messages[..i])
      {
        var msg := messages[i];
        IndexStep(messages, i);
        messageMap := messageMap[msg.record.uuid := msg];
        if msg.record.isSidechain {
          var sessionId := msg.record.sessionId;
          if sessionId !in sidechainMap {
            sidechainMap := sidechainMap[sessionId := []];
          }
          sidechainMap := sidechainMap[sessionId := sidechainMap[sessionId] + [msg]];
        }
        i := i + 1;
      }
      assert messages[..i] == messages;
    }

    /**
     * The second loop of `processConversation`: a message whose truthy `parentUuid` is a
     * key of the uuid map flags the message stored there.
     */
    method FlagParents(messages: seq<Message>)
      requires messageMap == UuidIndex(messages)
      modifies messages
      ensures forall m :: m in messages ==> m.hasChildren == (old(m.hasChildren) || HasChild(messages, m))
    {
      var j := 0;
      while j < |messages|
        invariant 0 <= j <= |messages|
        invariant forall m :: m in messages ==>
          m.hasChildren == (old(m.hasChildren) || exists k :: 0 <= k < j && NamesAsParent(messages, k, m))
      {
        var msg := messages[j];
        var parentUuid := ParentRef(msg);
        if parentUuid.Some? && parentUuid.value in messageMap {
          var parent := messageMap[parentUuid.value];
          parent.hasChildren := true;
          assert NamesAsParent(messages, j, parent);
        }
        j := j + 1;
      }
    }
  }
}
