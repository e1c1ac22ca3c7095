/** The chat reducer: a window of recent messages, edited and deleted in place, and who is in the room. */
module Chats {
  import opened Types
  import opened Sequences

  const CAP := 50

  function Zero(): ChatState { ChatState("", [], []) }

  /** The first message with an id, or the number of messages. */
  function FirstWithId(ms: seq<ChatMessage>, id: string): (i: nat)
    ensures i <= |ms|
    ensures i < |ms| ==> ms[i].id == id
    ensures forall j :: 0 <= j < i ==> ms[j].id != id
  {
    if ms == [] || ms[0].id == id then 0 else 1 + FirstWithId(ms[1..], id)
  }

  function Edited(ms: seq<ChatMessage>, id: string, text: string): (r: seq<ChatMessage>)
    ensures |r| == |ms|
  {
    var i := FirstWithId(ms, id);
    if i < |ms| then ms[i := ms[i].(text := text, edited := true)] else ms
  }

  function Deleted(ms: seq<ChatMessage>, id: string): (r: seq<ChatMessage>)
    ensures |r| <= |ms|
  {
    if ms == [] then []
    else Deleted(ms[..|ms| - 1], id) + (if ms[|ms| - 1].id == id then [] else [ms[|ms| - 1]])
  }

  function Posted(e: Event): ChatMessage {
    var id := GetStr(e.payload, "id");
    ChatMessage(if id == "" then e.id else id,
                GetStr(e.payload, "user"), GetStr(e.payload, "text"), e.occurredAt, false)
  }

  function Step(s: ChatState, e: Event): ChatState {
    match e.kind
    case "user_joined" =>
      var u := GetStr(e.payload, "user"); if u != "" then s.(participants := AddedUnique(s.participants, u)) else s
    case "user_left" =>
      var u := GetStr(e.payload, "user"); if u != "" then s.(participants := Without(s.participants, u)) else s
    case "msg_posted" => s.(recent := Window(s.recent + [Posted(e)], CAP))
    case "msg_edited" => s.(recent := Edited(s.recent, GetStr(e.payload, "id"), GetStr(e.payload, "text")))
    case "msg_deleted" => s.(recent := Deleted(s.recent, GetStr(e.payload, "id")))
    case _ => s
  }

  function Reduce(raw: Option<State>, e: Event): Option<State> {
    if raw.None? then Some(Chat(Step(Zero(), e)))
    else if raw.value.Chat? then Some(Chat(Step(raw.value.chat, e)))
    else None
  }

  /** The reducer as the program writes it. */
  method Apply(raw: Option<State>, e: Event) returns (r: Option<State>)
    ensures r == Reduce(raw, e)
  {
    var s := Zero();
    if raw.Some? {
      if !raw.value.Chat? { return None; }
      s := raw.value.chat;
    }
    match e.kind {
      case "user_joined" =>
        var u := GetStr(e.payload, "user");
        if u != "" {
          var ps := AddUnique(s.participants, u);
          s := s.(participants := ps);
        }
      case "user_left" =>
        var u := GetStr(e.payload, "user");
        if u != "" {
          var a := new string[|s.participants|](i requires 0 <= i < |s.participants| => s.participants[i]);
          assert a[..a.Length] == s.participants;
          var k := RemoveInPlace(a, a.Length, u);
          s := s.(participants := a[..k]);
        }
      case "msg_posted" =>
        var id := GetStr(e.payload, "id");
        if id == "" { id := e.id; }
        var m := ChatMessage(id, GetStr(e.payload, "user"), GetStr(e.payload, "text"), e.occurredAt, false);
        s := s.(recent := s.recent + [m]);
        if |s.recent| > CAP {
          s := s.(recent := s.recent[|s.recent| - CAP..]);
        }
      case "msg_edited" =>
        var a := new ChatMessage[|s.recent|](i requires 0 <= i < |s.recent| => s.recent[i]);
        assert a[..] == s.recent;
        EditInPlace(a, GetStr(e.payload, "id"), GetStr(e.payload, "text"));
        s := s.(recent := a[..]);
      case "msg_deleted" =>
        var a := new ChatMessage[|s.recent|](i requires 0 <= i < |s.recent| => s.recent[i]);
        assert a[..a.Length] == s.recent;
        var k := DeleteInPlace(a, a.Length, GetStr(e.payload, "id"));
        s := s.(recent := a[..k]);
      case _ =>
    }
    r := Some(Chat(s));
  }

  method EditInPlace(a: array<ChatMessage>, id: string, text: string)
    modifies a
    ensures a[..] == Edited(old(a[..]), id, text)
  {
    var i := 0;
    while i < a.Length
      invariant 0 <= i <= a.Length
      invariant a[..] == old(a[..])
      invariant forall j :: 0 <= j < i ==> old(a[..])[j].id != id
    {
      if a[i].id == id {
        assert FirstWithId(old(a[..]), id) == i;
        a[i] := a[i].(text := text, edited := true);
        return;
      }
      i := i + 1;
    }
  }

  /** out := Recent[:0]: the kept messages are copied down over the slice's own storage. */
  method DeleteInPlace(a: array<ChatMessage>, n: nat, id: string) returns (k: nat)
    requires n <= a.Length
    modifies a
    ensures k <= n && a[..k] == Deleted(old(a[..n]), id)
    ensures a[k..] == old(a[k..])
  {
    k := 0;
    ghost var was := a[..n];
    for i := 0 to n
      invariant k <= i
      invariant a[..k] == Deleted(was[..i], id)
      invariant forall j :: k <= j < a.Length ==> a[j] == old(a[..])[j]
    {
      var m := a[i];
      assert m == was[i];
      assert was[..i + 1][..i] == was[..i];
      if m.id != id {
        a[k] := m;
        k := k + 1;
      }
    }
    assert was[..n] == was;
  }

  // ---- runs ----

  function Run(events: seq<Event>): ChatState {
    if events == [] then Zero() else Step(Run(events[..|events| - 1]), events[|events| - 1])
  }

  // ---- participants ----

  function Presence(e: Event): Change<string> {
    var u := GetStr(e.payload, "user");
    if u == "" then Nothing
    else if e.kind == "user_joined" then Join(u)
    else if e.kind == "user_left" then Leave(u)
    else Nothing
  }

  function Presences(events: seq<Event>): (r: seq<Change<string>>)
    ensures |r| == |events|
  {
    seq(|events|, i requires 0 <= i < |events| => Presence(events[i]))
  }

  function PresentIn(events: seq<Event>): seq<string> {
    if events == [] then [] else Member(PresentIn(events[..|events| - 1]), Presence(events[|events| - 1]))
  }

  lemma ParticipantsStep(s: ChatState, e: Event)
    ensures Step(s, e).participants == Member(s.participants, Presence(e))
  {
  }

  lemma {:induction false} RunParticipants(events: seq<Event>)
    ensures Run(events).participants == PresentIn(events)
  {
    if events != [] {
      RunParticipants(events[..|events| - 1]);
      ParticipantsStep(Run(events[..|events| - 1]), events[|events| - 1]);
    }
  }

  lemma {:induction false} PresentAreMembers(events: seq<Event>)
    ensures PresentIn(events) == Members(Presences(events))
  {
    if events != [] {
      var before, e := events[..|events| - 1], events[|events| - 1];
      PresentAreMembers(before);
      assert Presences(events) == Presences(before) + [Presence(e)];
      MembersSnoc(Presences(before), Presence(e));
    }
  }

  /** No event names the room. */
  lemma {:induction false} RoomIsUnset(events: seq<Event>)
    ensures Run(events).room == ""
  {
    if events != [] { RoomIsUnset(events[..|events| - 1]); }
  }

  /** Participants are exactly the users whose last join or leave was a join, each once. */
  lemma ParticipantsIff(events: seq<Event>)
    ensures Distinct(Run(events).participants)
    ensures forall u :: u in Run(events).participants <==> LastJoined(Presences(events), u)
    ensures Run(events).room == ""
  {
    RoomIsUnset(events);
    RunParticipants(events);
    PresentAreMembers(events);
    MembersIff(Presences(events));
  }

  // ---- the window ----

  function RecentStep(ms: seq<ChatMessage>, e: Event): seq<ChatMessage> {
    if e.kind == "msg_posted" then Window(ms + [Posted(e)], CAP)
    else if e.kind == "msg_edited" then Edited(ms, GetStr(e.payload, "id"), GetStr(e.payload, "text"))
    else if e.kind == "msg_deleted" then Deleted(ms, GetStr(e.payload, "id"))
    else ms
  }

  function RecentOf(events: seq<Event>): seq<ChatMessage> {
    if events == [] then [] else RecentStep(RecentOf(events[..|events| - 1]), events[|events| - 1])
  }

  lemma RecentStepOk(s: ChatState, e: Event)
    ensures Step(s, e).recent == RecentStep(s.recent, e)
  {
  }

  lemma {:induction false} RunRecent(events: seq<Event>)
    ensures Run(events).recent == RecentOf(events)
  {
    if events != [] {
      RunRecent(events[..|events| - 1]);
      RecentStepOk(Run(events[..|events| - 1]), events[|events| - 1]);
    }
  }

  /** A post as made: its own id or else the event's, who wrote what when, unedited. */
  lemma {:induction false} PostIsLast(events: seq<Event>, e: Event)
    requires e.kind == "msg_posted"
    ensures Run(events + [e]).recent != []
    ensures var m, id := Run(events + [e]).recent[|Run(events + [e]).recent| - 1], GetStr(e.payload, "id");
      && m.id == (if id != "" then id else e.id) && m.user == GetStr(e.payload, "user")
      && m.text == GetStr(e.payload, "text") && m.postedAt == e.occurredAt && !m.edited
  {
    assert (events + [e])[..|events|] == events;
  }

  /** Who posted what and when: the part of a message no edit changes. */
  function Stamp(m: ChatMessage): (string, string, Time) { (m.id, m.user, m.postedAt) }

  function Stamps(ms: seq<ChatMessage>): (r: seq<(string, string, Time)>)
    ensures |r| == |ms|
  {
    seq(|ms|, i requires 0 <= i < |ms| => Stamp(ms[i]))
  }

  /** Every message as it was posted, oldest first. */
  function Messages(events: seq<Event>): seq<ChatMessage> {
    if events == [] then []
    else
      var e := events[|events| - 1];
      Messages(events[..|events| - 1]) + (if e.kind == "msg_posted" then [Posted(e)] else [])
  }

  function Posts(events: seq<Event>): seq<(string, string, Time)> { Stamps(Messages(events)) }

  lemma {:induction false} DeletedIsSubseq(ms: seq<ChatMessage>, id: string)
    ensures Subseq(Stamps(Deleted(ms, id)), Stamps(ms))
  {
    if ms != [] {
      var front, m := ms[..|ms| - 1], ms[|ms| - 1];
      DeletedIsSubseq(front, id);
      assert Stamps(ms) == Stamps(front) + [Stamp(m)];
      if m.id == id {
        assert Deleted(ms, id) == Deleted(front, id);
        SubseqSkip(Stamps(Deleted(front, id)), Stamps(front), Stamp(m));
      } else {
        assert Stamps(Deleted(ms, id)) == Stamps(Deleted(front, id)) + [Stamp(m)];
        SubseqTake(Stamps(Deleted(front, id)), Stamps(front), Stamp(m));
      }
    }
  }

  /** Whatever is edited or deleted, the window holds at most CAP messages, in the order they were posted. */
  lemma {:induction false} RecentIsSubseq(events: seq<Event>)
    ensures |RecentOf(events)| <= CAP
    ensures Subseq(Stamps(RecentOf(events)), Posts(events))
  {
    if events != [] {
      var before, e := events[..|events| - 1], events[|events| - 1];
      var ms := RecentOf(before);
      RecentIsSubseq(before);
      if e.kind == "msg_posted" {
        PostKeepsSubseq(ms, Posts(before), Posted(e));
        StampsSnoc(Messages(before), Posted(e));
      } else {
        assert Messages(events) == Messages(before);
        if e.kind == "msg_edited" {
          EditKeepsStamps(ms, GetStr(e.payload, "id"), GetStr(e.payload, "text"));
        } else if e.kind == "msg_deleted" {
          DeletedIsSubseq(ms, GetStr(e.payload, "id"));
          SubseqTrans(Stamps(RecentOf(events)), Stamps(ms), Posts(before));
        }
      }
    }
  }

  lemma StampsSnoc(ms: seq<ChatMessage>, m: ChatMessage)
    ensures Stamps(ms + [m]) == Stamps(ms) + [Stamp(m)]
  {
  }

  lemma EditKeepsStamps(ms: seq<ChatMessage>, id: string, text: string)
    ensures Stamps(Edited(ms, id, text)) == Stamps(ms)
  {
  }

  lemma PostKeepsSubseq(ms: seq<ChatMessage>, posts: seq<(string, string, Time)>, m: ChatMessage)
    requires Subseq(Stamps(ms), posts)
    ensures Subseq(Stamps(Window(ms + [m], CAP)), posts + [Stamp(m)])
  {
    StampsSnoc(ms, m);
    SubseqTake(Stamps(ms), posts, Stamp(m));
    var w := Window(ms + [m], CAP);
    var cut := |ms + [m]| - |w|;
    assert Stamps(w) == Stamps(ms + [m])[cut..];
    SubseqDrop(Stamps(ms + [m]), posts + [Stamp(m)], cut);
  }

  // ---- which posts the window keeps ----

  lemma {:induction false} MessagesGrow(events: seq<Event>, n: nat)
    requires n <= |events|
    ensures Messages(events[..n]) <= Messages(events)
  {
    if n < |events| {
      MessagesGrow(events[..|events| - 1], n);
      assert events[..|events| - 1][..n] == events[..n];
    } else {
      assert events[..n] == events;
    }
  }

  lemma MessagesSnoc(before: seq<Event>, e: Event)
    ensures Messages(before + [e]) == Messages(before) + (if e.kind == "msg_posted" then [Posted(e)] else [])
  {
    assert (before + [e])[..|before|] == before;
  }

  /** Post j was made, and no later msg_deleted names its id. */
  ghost predicate Alive(events: seq<Event>, j: nat) {
    && j < |Messages(events)|
    && forall l {:trigger Spares(events, j, l)} :: 0 <= l < |events| ==> Spares(events, j, l)
  }

  /** Event l is no delete of post j: another kind, or before the post, or of another id. */
  ghost predicate Spares(events: seq<Event>, j: nat, l: nat)
    requires j < |Messages(events)| && l < |events|
  {
    || events[l].kind != "msg_deleted" || |Messages(events[..l])| <= j
    || GetStr(events[l].payload, "id") != Messages(events)[j].id
  }

  lemma AliveSnoc(before: seq<Event>, e: Event, j: nat)
    ensures j < |Messages(before)| ==>
      (Alive(before + [e], j) <==>
         Alive(before, j) && !(e.kind == "msg_deleted" && GetStr(e.payload, "id") == Messages(before)[j].id))
    ensures j == |Messages(before)| ==> (Alive(before + [e], j) <==> e.kind == "msg_posted")
    ensures j > |Messages(before)| ==> !Alive(before + [e], j)
  {
    var events := before + [e];
    MessagesSnoc(before, e);
    assert events[..|before|] == before;
    if j < |Messages(before)| {
      forall l: nat | l < |before| ensures Spares(events, j, l) <==> Spares(before, j, l) {
        assert events[..l] == before[..l];
      }
      assert Spares(events, j, |before|) <==>
        !(e.kind == "msg_deleted" && GetStr(e.payload, "id") == Messages(before)[j].id);
    } else if j == |Messages(before)| && e.kind == "msg_posted" {
      forall l: nat | l < |events| ensures Spares(events, j, l) {
        MessagesGrow(before, l);
        assert before[..l] == events[..l];
      }
    }
  }

  /** How many of the posts from j on are alive. */
  ghost function AliveFrom(events: seq<Event>, j: nat): nat
    decreases |Messages(events)| - j
  {
    if j >= |Messages(events)| then 0 else AliveFrom(events, j + 1) + if Alive(events, j) then 1 else 0
  }

  /** Post j is alive, and at no time were 50 newer ones alive. */
  ghost predicate Kept(events: seq<Event>, j: nat) {
    Alive(events, j) && forall n {:trigger Room(events, j, n)} :: 0 <= n <= |events| ==> Room(events, j, n)
  }

  /** After the first n events, fewer than 50 posts newer than j are alive. */
  ghost predicate Room(events: seq<Event>, j: nat, n: nat)
    requires n <= |events|
  {
    AliveFrom(events[..n], j + 1) < 50
  }

  lemma {:induction false} AliveFromSnoc(before: seq<Event>, e: Event, j: nat)
    ensures e.kind == "msg_posted" && j <= |Messages(before)| ==>
      AliveFrom(before + [e], j) == AliveFrom(before, j) + 1
    ensures e.kind != "msg_posted" ==> AliveFrom(before + [e], j) <= AliveFrom(before, j)
    decreases |Messages(before)| - j
  {
    MessagesSnoc(before, e);
    AliveSnoc(before, e, j);
    if j < |Messages(before)| {
      AliveFromSnoc(before, e, j + 1);
    } else if j == |Messages(before)| && e.kind == "msg_posted" {
      assert AliveFrom(before + [e], j + 1) == 0;
    }
  }

  lemma {:induction false} AliveFromFalls(events: seq<Event>, i: nat, j: nat)
    requires i <= j
    ensures AliveFrom(events, j) <= AliveFrom(events, i)
    decreases j - i
  {
    if i < j && i < |Messages(events)| { AliveFromFalls(events, i + 1, j); }
  }

  /** One more event: kept before, still alive, and not pushed out by the event. */
  lemma KeptSnoc(before: seq<Event>, e: Event, j: nat)
    requires j < |Messages(before)|
    ensures Kept(before + [e], j) <==>
      Kept(before, j) && Alive(before + [e], j) && (e.kind == "msg_posted" ==> AliveFrom(before, j + 1) + 1 < 50)
  {
    var events := before + [e];
    AliveSnoc(before, e, j);
    AliveFromSnoc(before, e, j + 1);
    assert events[..|events|] == events && before[..|before|] == before;
    forall n: nat | n <= |before| ensures Room(events, j, n) <==> Room(before, j, n) {
      assert events[..n] == before[..n];
    }
    assert Room(events, j, |events|) <==> AliveFrom(events, j + 1) < 50;
    assert Room(before, j, |before|) <==> AliveFrom(before, j + 1) < 50;
  }

  lemma KeptNew(before: seq<Event>, e: Event)
    requires e.kind == "msg_posted"
    ensures Kept(before + [e], |Messages(before)|)
  {
    var events, m := before + [e], |Messages(before)|;
    AliveSnoc(before, e, m);
    MessagesSnoc(before, e);
    forall n: nat | n <= |events| ensures Room(events, m, n) { MessagesGrow(events, n); }
  }

  /** Whatever is alive and newer than a kept post is kept. */
  lemma KeptUpward(events: seq<Event>, i: nat, j: nat)
    requires Kept(events, i) && i <= j && Alive(events, j)
    ensures Kept(events, j)
  {
    forall n: nat | n <= |events| ensures Room(events, j, n) {
      assert Room(events, i, n);
      AliveFromFalls(events[..n], i + 1, j + 1);
    }
  }

  // ---- the reducer's own list of places ----

  /** The places not of this id, in order. */
  function Others(idx: seq<nat>, ms: seq<ChatMessage>, id: string): (r: seq<nat>)
    requires forall i :: 0 <= i < |idx| ==> idx[i] < |ms|
    ensures forall j :: j in r <==> j in idx && ms[j].id != id
  {
    if idx == [] then []
    else
      var n := |idx| - 1;
      assert idx == idx[..n] + [idx[n]];
      Others(idx[..n], ms, id) + (if ms[idx[n]].id == id then [] else [idx[n]])
  }

  ghost predicate Rising(idx: seq<nat>) { forall i, j :: 0 <= i < j < |idx| ==> idx[i] < idx[j] }

  lemma BelowLast(idx: seq<nat>, r: seq<nat>)
    requires idx != [] && Rising(idx) && forall j :: j in r ==> j in idx[..|idx| - 1]
    ensures forall i :: 0 <= i < |r| ==> r[i] < idx[|idx| - 1]
  {
    forall i | 0 <= i < |r| ensures r[i] < idx[|idx| - 1] {
      assert r[i] in r;
      var k :| 0 <= k < |idx| - 1 && idx[..|idx| - 1][k] == r[i];
      assert idx[k] < idx[|idx| - 1];
    }
  }

  lemma {:induction false} OthersRise(idx: seq<nat>, ms: seq<ChatMessage>, id: string)
    requires Rising(idx) && forall i :: 0 <= i < |idx| ==> idx[i] < |ms|
    ensures Rising(Others(idx, ms, id)) && |Others(idx, ms, id)| <= |idx|
  {
    if idx != [] {
      var n := |idx| - 1;
      var r := Others(idx[..n], ms, id);
      OthersRise(idx[..n], ms, id);
      BelowLast(idx, r);
    }
  }

  /** Which posts the window holds, oldest first. */
  ghost function Places(events: seq<Event>): (r: seq<nat>)
    ensures forall i :: 0 <= i < |r| ==> r[i] < |Messages(events)|
  {
    if events == [] then []
    else
      var before, e := events[..|events| - 1], events[|events| - 1];
      if e.kind == "msg_posted" then Window(Places(before) + [|Messages(before)|], CAP)
      else if e.kind == "msg_deleted" then
        var r := Others(Places(before), Messages(before), GetStr(e.payload, "id"));
        assert forall i :: 0 <= i < |r| ==> r[i] in r;
        r
      else Places(before)
  }

  /** With the live posts from j on being the places from the p-th on, there are so many. */
  lemma {:induction false} PlacesCount(events: seq<Event>, idx: seq<nat>, j: nat, p: nat)
    requires Rising(idx) && p <= |idx| && (forall i :: 0 <= i < |idx| ==> idx[i] < |Messages(events)|)
    requires forall i :: 0 <= i < p ==> idx[i] < j
    requires forall i :: p <= i < |idx| ==> idx[i] >= j
    requires forall i: nat :: i >= j ==> (Alive(events, i) <==> i in idx)
    ensures AliveFrom(events, j) == |idx| - p
    decreases |Messages(events)| - j
  {
    if j < |Messages(events)| {
      if Alive(events, j) {
        var q :| 0 <= q < |idx| && idx[q] == j;
        assert !(idx[p] < idx[q]);
        assert q == p;
        PlacesCount(events, idx, j + 1, p + 1);
      } else {
        assert forall i :: p <= i < |idx| ==> idx[i] in idx;
        PlacesCount(events, idx, j + 1, p);
      }
    }
  }

  ghost predicate PlacesOk(events: seq<Event>, idx: seq<nat>) {
    && |idx| <= 50 && Rising(idx) && (forall i :: 0 <= i < |idx| ==> idx[i] < |Messages(events)|)
    && forall j: nat :: j in idx <==> Kept(events, j)
  }

  lemma NewerThan(events: seq<Event>, idx: seq<nat>, k: nat)
    requires PlacesOk(events, idx) && k < |idx|
    ensures AliveFrom(events, idx[k] + 1) == |idx| - 1 - k
  {
    assert Kept(events, idx[k]) by { assert idx[k] in idx; }
    forall i: nat | i >= idx[k] + 1 ensures Alive(events, i) <==> i in idx {
      if Alive(events, i) { KeptUpward(events, idx[k], i); }
    }
    PlacesCount(events, idx, idx[k] + 1, k + 1);
  }

  lemma PostPlaces(before: seq<Event>, e: Event, idx: seq<nat>)
    requires PlacesOk(before, idx) && e.kind == "msg_posted"
    ensures PlacesOk(before + [e], Window(idx + [|Messages(before)|], CAP))
  {
    var w := Window(idx + [|Messages(before)|], CAP);
    MessagesSnoc(before, e);
    WindowRises(idx, |Messages(before)|);
    forall j: nat ensures j in w <==> Kept(before + [e], j) { PostKeeps(before, e, idx, j); }
  }

  lemma WindowRises(idx: seq<nat>, m: nat)
    requires Rising(idx) && forall i :: 0 <= i < |idx| ==> idx[i] < m
    ensures var w := Window(idx + [m], CAP);
      |w| <= 50 && Rising(w) && forall i :: 0 <= i < |w| ==> w[i] < m + 1
  {
    var all := idx + [m];
    var w := Window(all, CAP);
    assert forall i :: 0 <= i < |w| ==> w[i] == all[|all| - |w| + i];
  }

  lemma PostKeeps(before: seq<Event>, e: Event, idx: seq<nat>, j: nat)
    requires PlacesOk(before, idx) && e.kind == "msg_posted"
    ensures j in Window(idx + [|Messages(before)|], CAP) <==> Kept(before + [e], j)
  {
    var all := idx + [|Messages(before)|];
    var w := Window(all, CAP);
    var cut := |all| - |w|;
    AliveSnoc(before, e, j);
    assert w == all[cut..];
    if j == |Messages(before)| {
      KeptNew(before, e);
      assert w[|w| - 1] == j;
    } else if j < |Messages(before)| {
      KeptSnoc(before, e, j);
      InWindow(idx, |Messages(before)|, all, cut, j);
      if j in idx { KeepsPlace(before, idx, cut, j); }
    }
  }

  lemma KeepsPlace(before: seq<Event>, idx: seq<nat>, cut: nat, j: nat)
    requires PlacesOk(before, idx) && j in idx && cut == if |idx| + 1 > 50 then |idx| + 1 - 50 else 0
    ensures exists k :: 0 <= k < |idx| && idx[k] == j && (k >= cut <==> AliveFrom(before, j + 1) + 1 < 50)
  {
    var k :| 0 <= k < |idx| && idx[k] == j;
    NewerThan(before, idx, k);
  }

  lemma InWindow(idx: seq<nat>, last: nat, all: seq<nat>, cut: nat, j: nat)
    requires Rising(idx) && all == idx + [last] && cut <= |idx| && last != j
    ensures j in all[cut..] ==> j in idx
    ensures forall k :: 0 <= k < |idx| && idx[k] == j ==> (j in all[cut..] <==> k >= cut)
  {
    forall k | 0 <= k < |idx| && idx[k] == j ensures j in all[cut..] <==> k >= cut {
      if k >= cut { assert all[cut..][k - cut] == j; }
    }
  }

  lemma OtherPlaces(before: seq<Event>, e: Event, idx: seq<nat>)
    requires PlacesOk(before, idx) && e.kind != "msg_posted"
    ensures PlacesOk(before + [e],
      if e.kind == "msg_deleted" then Others(idx, Messages(before), GetStr(e.payload, "id")) else idx)
  {
    var ms, id := Messages(before), GetStr(e.payload, "id");
    var after := if e.kind == "msg_deleted" then Others(idx, ms, id) else idx;
    MessagesSnoc(before, e);
    OthersRise(idx, ms, id);
    forall j: nat ensures j in after <==> Kept(before + [e], j) { OtherKeeps(before, e, idx, j); }
    forall i | 0 <= i < |after| ensures after[i] < |ms| { assert after[i] in after; }
  }

  lemma OtherKeeps(before: seq<Event>, e: Event, idx: seq<nat>, j: nat)
    requires PlacesOk(before, idx) && e.kind != "msg_posted"
    ensures j in (if e.kind == "msg_deleted" then Others(idx, Messages(before), GetStr(e.payload, "id")) else idx)
      <==> Kept(before + [e], j)
  {
    AliveSnoc(before, e, j);
    if j < |Messages(before)| { KeptSnoc(before, e, j); }
  }

  /** The window's places are exactly the posts kept, in order. */
  lemma {:induction false} PlacesAreKept(events: seq<Event>)
    ensures PlacesOk(events, Places(events))
  {
    if events != [] {
      var before, e := events[..|events| - 1], events[|events| - 1];
      PlacesAreKept(before);
      assert events == before + [e];
      if e.kind == "msg_posted" {
        PostPlaces(before, e, Places(before));
      } else {
        OtherPlaces(before, e, Places(before));
      }
    }
  }

  // ---- which edit each message ends with ----

  /** Of the posts kept, j is the first with the id. */
  ghost predicate Hit(before: seq<Event>, id: string, j: nat) {
    && Kept(before, j) && Messages(before)[j].id == id
    && forall i: nat :: i < j && Kept(before, i) ==> Messages(before)[i].id != id
  }

  /** e, coming after the events before, edits post j. */
  ghost predicate Reached(before: seq<Event>, e: Event, j: nat) {
    e.kind == "msg_edited" && Hit(before, GetStr(e.payload, "id"), j)
  }

  /** Event k of the run edits post j. */
  ghost predicate Edits(events: seq<Event>, k: nat, j: nat) {
    k < |events| && Reached(events[..k], events[k], j)
  }

  lemma EditsFront(events: seq<Event>, n: nat, j: nat)
    requires n <= |events|
    ensures forall k: nat {:trigger Edits(events, k, j)} :: k < n ==>
      (Edits(events[..n], k, j) <==> Edits(events, k, j))
  {
    forall k: nat | k < n ensures Edits(events[..n], k, j) <==> Edits(events, k, j) {
      assert events[..n][..k] == events[..k];
    }
  }

  /** The last event that edits post j, or -1. */
  ghost function LastEdit(events: seq<Event>, j: nat): (i: int)
    ensures -1 <= i < |events|
    ensures i >= 0 ==> Edits(events, i, j)
    ensures forall k {:trigger Edits(events, k, j)} :: i < k < |events| ==> !Edits(events, k, j)
  {
    if events == [] then -1
    else
      var n := |events| - 1;
      EditsFront(events, n, j);
      if Edits(events, n, j) then n else LastEdit(events[..n], j)
  }

  /** Post j as it reads after the last edit that reached it while it was kept. */
  ghost function Final(events: seq<Event>, j: nat): ChatMessage
    requires j < |Messages(events)|
  {
    var m, i := Messages(events)[j], LastEdit(events, j);
    if i < 0 then m else m.(text := GetStr(events[i].payload, "text"), edited := true)
  }

  /** Nothing edits a post that has not been made. */
  lemma {:induction false} EditsComeLater(events: seq<Event>, j: nat)
    requires j >= |Messages(events)|
    ensures LastEdit(events, j) == -1
  {
    if events != [] { EditsComeLater(events[..|events| - 1], j); }
  }

  /** One more event: a post as made, or the reached post rewritten, or nothing. */
  lemma FinalSnoc(before: seq<Event>, e: Event, j: nat)
    requires j < |Messages(before + [e])|
    ensures e.kind == "msg_posted" && j == |Messages(before)| ==> Final(before + [e], j) == Posted(e)
    ensures j < |Messages(before)| && Reached(before, e, j) ==>
      Final(before + [e], j) == Final(before, j).(text := GetStr(e.payload, "text"), edited := true)
    ensures j < |Messages(before)| && !Reached(before, e, j) ==> Final(before + [e], j) == Final(before, j)
  {
    var events := before + [e];
    assert events[..|before|] == before;
    MessagesSnoc(before, e);
    if j == |Messages(before)| { EditsComeLater(before, j); }
  }

  ghost predicate ReadsAs(ms: seq<ChatMessage>, events: seq<Event>, idx: seq<nat>) {
    && |ms| == |idx|
    && forall i :: 0 <= i < |idx| ==> idx[i] < |Messages(events)| && ms[i] == Final(events, idx[i])
  }

  lemma PostReads(ms: seq<ChatMessage>, before: seq<Event>, e: Event, idx: seq<nat>)
    requires ReadsAs(ms, before, idx) && e.kind == "msg_posted"
    ensures ReadsAs(Window(ms + [Posted(e)], CAP), before + [e], Window(idx + [|Messages(before)|], CAP))
  {
    var all, ns := idx + [|Messages(before)|], ms + [Posted(e)];
    MessagesSnoc(before, e);
    forall i | 0 <= i < |all| ensures all[i] < |Messages(before + [e])| && ns[i] == Final(before + [e], all[i]) {
      FinalSnoc(before, e, all[i]);
    }
  }

  /** An edit changes exactly the message it hits. */
  lemma EditReads(ms: seq<ChatMessage>, before: seq<Event>, e: Event, idx: seq<nat>)
    requires ReadsAs(ms, before, idx) && PlacesOk(before, idx) && e.kind == "msg_edited"
    ensures ReadsAs(Edited(ms, GetStr(e.payload, "id"), GetStr(e.payload, "text")), before + [e], idx)
  {
    var id := GetStr(e.payload, "id");
    MessagesSnoc(before, e);
    forall i | 0 <= i < |idx| ensures ms[i].id == Messages(before)[idx[i]].id && idx[i] in idx { }
    forall i | 0 <= i < |idx| ensures Edited(ms, id, GetStr(e.payload, "text"))[i] == Final(before + [e], idx[i]) {
      FinalSnoc(before, e, idx[i]);
      HitIff(ms, before, idx, id, i);
    }
  }

  lemma HitIff(ms: seq<ChatMessage>, before: seq<Event>, idx: seq<nat>, id: string, i: nat)
    requires ReadsAs(ms, before, idx) && PlacesOk(before, idx) && i < |idx|
    ensures Hit(before, id, idx[i]) <==> FirstWithId(ms, id) == i
  {
    forall k | 0 <= k < |idx| ensures ms[k].id == Messages(before)[idx[k]].id && Kept(before, idx[k]) {
      assert idx[k] in idx;
    }
    if FirstWithId(ms, id) == i {
      forall l: nat | l < idx[i] && Kept(before, l) ensures Messages(before)[l].id != id {
        var k :| 0 <= k < |idx| && idx[k] == l;
        assert k < i;
      }
    } else if ms[i].id == id {
      assert FirstWithId(ms, id) < i && Kept(before, idx[FirstWithId(ms, id)]);
    }
  }

  lemma {:induction false} DeleteReads(ms: seq<ChatMessage>, before: seq<Event>, e: Event, idx: seq<nat>)
    requires ReadsAs(ms, before, idx) && e.kind == "msg_deleted"
    ensures ReadsAs(Deleted(ms, GetStr(e.payload, "id")), before + [e],
                    Others(idx, Messages(before), GetStr(e.payload, "id")))
  {
    MessagesSnoc(before, e);
    if idx != [] {
      var n := |idx| - 1;
      DeleteReads(ms[..n], before, e, idx[..n]);
      FinalSnoc(before, e, idx[n]);
      assert ms[n].id == Messages(before)[idx[n]].id;
    }
  }

  lemma SameReads(ms: seq<ChatMessage>, before: seq<Event>, e: Event, idx: seq<nat>)
    requires ReadsAs(ms, before, idx) && e.kind !in {"msg_posted", "msg_edited", "msg_deleted"}
    ensures ReadsAs(ms, before + [e], idx)
  {
    MessagesSnoc(before, e);
    forall i | 0 <= i < |idx| ensures ms[i] == Final(before + [e], idx[i]) { FinalSnoc(before, e, idx[i]); }
  }

  lemma {:induction false} RecentReads(events: seq<Event>)
    ensures ReadsAs(RecentOf(events), events, Places(events))
  {
    if events != [] {
      var before, e := events[..|events| - 1], events[|events| - 1];
      var ms, idx := RecentOf(before), Places(before);
      RecentReads(before);
      PlacesAreKept(before);
      assert events == before + [e];
      match e.kind {
        case "msg_posted" => PostReads(ms, before, e, idx);
        case "msg_edited" => EditReads(ms, before, e, idx);
        case "msg_deleted" => DeleteReads(ms, before, e, idx);
        case _ => SameReads(ms, before, e, idx);
      }
    }
  }

  /**
   What a room shows, deletes and edits included: at most 50 messages, which are exactly the posts
   kept, oldest first, each reading as the last edit that reached it left it. idx names their posts.
   */
  lemma RecentFacts(events: seq<Event>) returns (idx: seq<nat>)
    ensures |Run(events).recent| == |idx| <= 50
    ensures Subseq(Stamps(Run(events).recent), Posts(events))
    ensures forall i, j :: 0 <= i < j < |idx| ==> idx[i] < idx[j]
    ensures forall j: nat :: j in idx <==> Kept(events, j)
    ensures forall i :: 0 <= i < |idx| ==> idx[i] < |Messages(events)| && Run(events).recent[i] == Final(events, idx[i])
  {
    idx := Places(events);
    RunRecent(events);
    RecentIsSubseq(events);
    PlacesAreKept(events);
    RecentReads(events);
  }

  // ---- one delete, and no deletes ----

  lemma {:induction false} DeletedFacts(ms: seq<ChatMessage>, id: string)
    ensures forall m :: m in Deleted(ms, id) ==> m.id != id
    ensures Subseq(Deleted(ms, id), ms)
    ensures forall m: ChatMessage :: m.id != id ==> multiset(Deleted(ms, id))[m] == multiset(ms)[m]
  {
    if ms != [] {
      var front, last := ms[..|ms| - 1], ms[|ms| - 1];
      DeletedFacts(front, id);
      assert ms == front + [last];
      if last.id == id {
        SubseqSkip(Deleted(front, id), front, last);
        assert Deleted(ms, id) == Deleted(front, id);
      } else {
        SubseqTake(Deleted(front, id), front, last);
      }
    }
  }

  /** After a delete no message with the id is left; the others are the old ones, unchanged, in order and as many. */
  lemma DeleteTakesOut(events: seq<Event>, e: Event)
    requires e.kind == "msg_deleted"
    ensures var was, now, id := Run(events).recent, Run(events + [e]).recent, GetStr(e.payload, "id");
      && (forall m :: m in now ==> m.id != id) && Subseq(now, was)
      && forall m: ChatMessage :: m.id != id ==> multiset(now)[m] == multiset(was)[m]
    ensures Run(events + [e]).participants == Run(events).participants
  {
    assert (events + [e])[..|events|] == events;
    DeletedFacts(Run(events).recent, GetStr(e.payload, "id"));
  }

  /** Where the last 50 of n begin. */
  function WindowStart(n: nat): nat { if n > 50 then n - 50 else 0 }

  lemma {:induction false} AllAlive(events: seq<Event>, j: nat)
    requires forall i :: 0 <= i < |events| ==> events[i].kind != "msg_deleted"
    ensures AliveFrom(events, j) == if j < |Messages(events)| then |Messages(events)| - j else 0
    decreases |Messages(events)| - j
  {
    if j < |Messages(events)| { AllAlive(events, j + 1); }
  }

  lemma KeptWithoutDeletes(events: seq<Event>, j: nat)
    requires forall i :: 0 <= i < |events| ==> events[i].kind != "msg_deleted"
    ensures Kept(events, j) <==> WindowStart(|Messages(events)|) <= j < |Messages(events)|
  {
    AllAlive(events, j + 1);
    forall n: nat | n <= |events| ensures AliveFrom(events, j + 1) < 50 ==> Room(events, j, n) {
      AllAlive(events[..n], j + 1);
      MessagesGrow(events, n);
    }
    assert events[..|events|] == events;
    assert Room(events, j, |events|) <==> AliveFrom(events, j + 1) < 50;
    if j < |Messages(events)| { assert forall l: nat :: l < |events| ==> Spares(events, j, l); }
  }

  lemma {:induction false} IntervalPlaces(idx: seq<nat>, lo: nat, hi: nat, i: nat)
    requires Rising(idx) && lo <= hi && forall j: nat :: j in idx <==> lo <= j < hi
    requires i < |idx|
    ensures idx[i] == lo + i
    decreases i
  {
    assert idx[i] in idx;
    if i > 0 {
      IntervalPlaces(idx, lo, hi, i - 1);
      assert lo + i in idx;
      var k :| 0 <= k < |idx| && idx[k] == lo + i;
    } else {
      assert lo in idx;
      var k :| 0 <= k < |idx| && idx[k] == lo;
    }
  }

  lemma IntervalLength(idx: seq<nat>, lo: nat, hi: nat)
    requires Rising(idx) && lo <= hi && forall j: nat :: j in idx <==> lo <= j < hi
    ensures |idx| == hi - lo
  {
    assert lo in idx <==> lo < hi;
    if idx != [] {
      IntervalPlaces(idx, lo, hi, |idx| - 1);
      assert idx[|idx| - 1] in idx && hi - 1 in idx;
      var k :| 0 <= k < |idx| && idx[k] == hi - 1;
    }
  }

  /** Without deletes the room shows exactly the last 50 posts. */
  lemma RecentWithoutDeletes(events: seq<Event>)
    requires forall i :: 0 <= i < |events| ==> events[i].kind != "msg_deleted"
    ensures var n, lo := |Messages(events)|, WindowStart(|Messages(events)|);
      && |Run(events).recent| == n - lo
      && forall i :: 0 <= i < n - lo ==> Run(events).recent[i] == Final(events, lo + i)
  {
    var n, lo := |Messages(events)|, WindowStart(|Messages(events)|);
    var idx := RecentFacts(events);
    forall j: nat ensures j in idx <==> lo <= j < n { KeptWithoutDeletes(events, j); }
    IntervalLength(idx, lo, n);
    forall i | 0 <= i < n - lo ensures idx[i] == lo + i { IntervalPlaces(idx, lo, n, i); }
  }
}
