/** Lookups over the conduit: every open request is in flight one way or its answer the other way, never both, and every
    answer finds the request it is for. */
module LinkLookups {
  import opened Bytes
  import opened Codec
  import opened Portal
  import opened PortalFrames
  import opened PortalSends
  import opened PortalEnds
  import opened Link
  import opened LinkWire

  function ReqOf(pk: Packet): seq<(nat, string)> {
    match pk
    case ContentPacket(Decoded(RequestActorByName(id, name))) => [(id, name)]
    case _ => []
  }

  function RespOf(pk: Packet): seq<(nat, Lookup)> {
    match pk
    case ContentPacket(Decoded(ResponseActorByName(id, r))) => [(id, r)]
    case ContentPacket(Decoded(ResponseActorById(id, r))) => [(id, r)]
    case _ => []
  }

  /** The lookups asked in a stretch of traffic, in order. */
  function Reqs(s: seq<Packet>): seq<(nat, string)> {
    if s == [] then [] else Reqs(s[..|s| - 1]) + ReqOf(s[|s| - 1])
  }

  /** The lookups answered in a stretch of traffic, in order. */
  function Resps(s: seq<Packet>): seq<(nat, Lookup)> {
    if s == [] then [] else Resps(s[..|s| - 1]) + RespOf(s[|s| - 1])
  }

  lemma LookupsSnoc(s: seq<Packet>, pk: Packet)
    ensures Reqs(s + [pk]) == Reqs(s) + ReqOf(pk) && Resps(s + [pk]) == Resps(s) + RespOf(pk)
  {
    assert (s + [pk])[..|s|] == s;
  }

  lemma {:induction false} LookupsPrefix(s: seq<Packet>, t: seq<Packet>)
    requires s <= t
    ensures Reqs(s) <= Reqs(t) && Resps(s) <= Resps(t)
    decreases |t|
  {
    if s != t {
      LookupsPrefix(s, t[..|t| - 1]);
    }
  }

  // ------------------------------------------------------------------------------------------------
  // Invariants

  /** Requests are numbered from one in the order they were accepted, and went out in that order. */
  ghost predicate Asking(p: Portal) {
    && p.nextRequestId == |p.log.asked| + 1
    && |Reqs(p.log.sent)| <= |p.log.asked| && (p.status.Running? ==> |Reqs(p.log.sent)| == |p.log.asked|)
    && forall i :: 0 <= i < |Reqs(p.log.sent)| ==> Reqs(p.log.sent)[i] == (i + 1, p.log.asked[i].0)
  }

  /** Requests are answered one by one, in the order they were heard. */
  ghost predicate Answering(p: Portal, heard: seq<Packet>) {
    && |Resps(p.log.sent)| <= |Reqs(heard)| && (p.status.Running? ==> |Resps(p.log.sent)| == |Reqs(heard)|)
    && forall i :: 0 <= i < |Resps(p.log.sent)| ==> Resps(p.log.sent)[i].0 == Reqs(heard)[i].0
  }

  /** Of the requests asked, the first `m` are answered and the others are open, each with its own port. */
  ghost predicate OpenOk(open: map<nat, Port>, asked: seq<(string, Port)>, m: nat) {
    && m <= |asked|
    && (forall id :: id in open <==> m < id <= |asked|)
    && (forall id :: id in open && m < id <= |asked| ==> open[id] == asked[id - 1].1)
  }

  /** Every answer went to the port of its own request. */
  predicate AnsweredOk(answered: seq<(Port, Lookup)>, asked: seq<(string, Port)>, resps: seq<(nat, Lookup)>) {
    && |answered| == |resps| <= |asked|
    && forall i :: 0 <= i < |resps| ==> answered[i] == (asked[i].1, resps[i].1)
  }

  ghost predicate Awaiting(p: Portal, heard: seq<Packet>) {
    && OpenOk(p.openRequests, p.log.asked, |Resps(heard)|)
    && (p.status.Running? ==> AnsweredOk(p.log.answered, p.log.asked, Resps(heard)))
    && UnknownRequest !in p.log.complaints
  }

  ghost predicate LookupInv(x: Node) {
    Asking(x.p) && Answering(x.p, x.heard) && Awaiting(x.p, x.heard)
  }

  // ------------------------------------------------------------------------------------------------
  // One turn

  /** The next answer on the wire is for the oldest open request. */
  lemma ResponseIsNext(x: Node, y: Node, m: Mail, rest: seq<Mail>)
    requires Wired(x, y) && Wired(y, x) && Asking(x.p) && Answering(y.p, y.heard)
    requires x.mailbox == [m] + rest && IsResponse(m)
    ensures m.data.msg.id == |Resps(x.heard)| + 1 <= |x.p.log.asked|
  {
    NextHeard(x, y, m, rest);
    HeardIsPrefix(x, y);
    HeardIsPrefix(y, x);
    var pk := ToPacket(m).value;
    assert x.heard + [pk] <= y.p.log.sent;
    LookupsSnoc(x.heard, pk);
    LookupsPrefix(x.heard + [pk], y.p.log.sent);
    LookupsPrefix(y.heard, x.p.log.sent);
    var k := |Resps(x.heard)|;
    assert Resps(x.heard + [pk])[k] == (m.data.msg.id, m.data.msg.result);
    assert Resps(y.p.log.sent)[k].0 == m.data.msg.id;
    assert Reqs(y.heard)[k] == Reqs(x.p.log.sent)[k];
  }

  lemma QueryTurn(p: Portal, m: Mail, w: World)
    requires m.QueryNamedRemoteActor?
    ensures var q := Turn(p, m, w);
      && q.log.answered == p.log.answered
      && (if p.channel.Opening? || p.nextRequestId == U64_LIMIT - 1 then
            q.nextRequestId == p.nextRequestId && q.openRequests == p.openRequests && q.log.asked == p.log.asked
            && (q.status.Running? ==> p.channel.Opening?)
          else
            q.nextRequestId == p.nextRequestId + 1 && q.openRequests == p.openRequests[p.nextRequestId := m.port]
            && q.log.asked == p.log.asked + [(m.name, m.port)])
  {
  }

  lemma ResponseTurn(p: Portal, m: Mail, w: World)
    requires IsResponse(m) && p.channel.Open? && m.data.msg.id in p.openRequests
    ensures var q, id := Turn(p, m, w), m.data.msg.id;
      && q.nextRequestId == p.nextRequestId && q.log.asked == p.log.asked
      && q.openRequests == p.openRequests - {id}
      && (q.status.Running? ==>
            && q.log.answered == p.log.answered + [(p.openRequests[id], m.data.msg.result)]
            && (m.data.msg.result.Found? ==> m.data.msg.result.id in q.log.learned))
  {
    assert Turn(p, m, w) == OnResponse(p, m.data.msg.id, m.data.msg.result, w);
  }

  lemma AskingAfterTurn(p: Portal, m: Mail, w: World)
    requires Asking(p) && Basics(p) && p.status.Running? && w.uuid !in p.published
    ensures Asking(Turn(p, m, w))
  {
    var sent := SentStep(p, m, w);
    if m.QueryNamedRemoteActor? {
      QueryTurn(p, m, w);
      AskingSent(p, Turn(p, m, w), m, sent);
    } else {
      AskedByQueryOnly(p, m, w);
      AskingKept(p, Turn(p, m, w), m, sent);
    }
  }

  lemma AskingSent(p: Portal, q: Portal, m: Mail, sent: Option<CrossPortal>)
    requires Asking(p) && p.status.Running? && m.QueryNamedRemoteActor?
    requires q.log.sent == p.log.sent + Appended(sent) && (sent.Some? ==> p.channel.Open? && SentFor(p, m, q, sent.value))
    requires sent.None? && q.status.Running? ==> p.channel.Opening?
    requires if p.channel.Opening? || p.nextRequestId == U64_LIMIT - 1
             then q.nextRequestId == p.nextRequestId && q.log.asked == p.log.asked
                  && (p.nextRequestId == U64_LIMIT - 1 ==> q.log.sent == p.log.sent)
             else q.nextRequestId == p.nextRequestId + 1 && q.log.asked == p.log.asked + [(m.name, m.port)]
    ensures Asking(q)
  {
    SentLookups(p.log.sent, sent);
  }

  lemma AskingKept(p: Portal, q: Portal, m: Mail, sent: Option<CrossPortal>)
    requires Asking(p) && p.status.Running? && !m.QueryNamedRemoteActor?
    requires q.log.sent == p.log.sent + Appended(sent) && (sent.Some? ==> SentFor(p, m, q, sent.value))
    requires q.nextRequestId == p.nextRequestId && q.log.asked == p.log.asked
    ensures Asking(q)
  {
    SentLookups(p.log.sent, sent);
  }

  lemma AskedByQueryOnly(p: Portal, m: Mail, w: World)
    requires !m.QueryNamedRemoteActor?
    ensures Turn(p, m, w).nextRequestId == p.nextRequestId && Turn(p, m, w).log.asked == p.log.asked
  {
    if IsResponse(m) {
      if p.channel.Open? {
        ResponseChanges(p, m.data.msg.id, m.data.msg.result, w);
        assert Turn(p, m, w) == OnResponse(p, m.data.msg.id, m.data.msg.result, w);
      }
    } else {
      TurnFramed(p, m, w);
    }
  }

  lemma SentLookups(s: seq<Packet>, sent: Option<CrossPortal>)
    ensures Reqs(s + Appended(sent)) == Reqs(s) + (if sent.Some? then ReqOf(ContentPacket(Decoded(sent.value))) else [])
    ensures Resps(s + Appended(sent)) == Resps(s) + (if sent.Some? then RespOf(ContentPacket(Decoded(sent.value))) else [])
  {
    if sent.Some? {
      LookupsSnoc(s, ContentPacket(Decoded(sent.value)));
    } else {
      assert s + [] == s && Reqs(s) + [] == Reqs(s) && Resps(s) + [] == Resps(s);
    }
  }

  lemma HeardLookups(heard: seq<Packet>, m: Mail)
    ensures Reqs(heard + Heard(m)) == Reqs(heard) + (if IsRequest(m) then [(m.data.msg.id, m.data.msg.name)] else [])
    ensures Resps(heard + Heard(m)) == Resps(heard) + (if IsResponse(m) then [(m.data.msg.id, m.data.msg.result)] else [])
  {
    if ToPacket(m).Some? {
      LookupsSnoc(heard, ToPacket(m).value);
    } else {
      assert heard + [] == heard && Reqs(heard) + [] == Reqs(heard) && Resps(heard) + [] == Resps(heard);
    }
  }

  lemma AnsweringAfterTurn(p: Portal, heard: seq<Packet>, m: Mail, w: World)
    requires Answering(p, heard) && Basics(p) && p.status.Running? && w.uuid !in p.published
    requires IsRequest(m) ==> p.channel.Open?
    ensures Answering(Turn(p, m, w), heard + Heard(m))
  {
    var sent := SentStep(p, m, w);
    AnsweringSent(p, Turn(p, m, w), heard, m, sent);
  }

  lemma AnsweringSent(p: Portal, q: Portal, heard: seq<Packet>, m: Mail, sent: Option<CrossPortal>)
    requires Answering(p, heard) && p.status.Running?
    requires q.log.sent == p.log.sent + Appended(sent) && (sent.Some? ==> SentFor(p, m, q, sent.value))
    requires sent.None? && q.status.Running? ==> !IsRequest(m)
    ensures Answering(q, heard + Heard(m))
  {
    SentLookups(p.log.sent, sent);
    HeardLookups(heard, m);
  }

  lemma AwaitingAfterTurn(x: Node, y: Node, m: Mail, w: World)
    requires LookupInv(x) && Answering(y.p, y.heard) && WireInv(x, y) && WireInv(y, x)
    requires x.p.status.Running? && x.mailbox != [] && m == x.mailbox[0]
    ensures Awaiting(Turn(x.p, m, w), x.heard + Heard(m))
  {
    if IsResponse(m) {
      ResponseInOrder(x, y, m);
      AwaitingAfterResponse(x.p, x.heard, m, w);
    } else if m.QueryNamedRemoteActor? {
      AwaitingAfterQuery(x.p, x.heard, m, w);
    } else {
      AwaitingAfterOther(x.p, x.heard, m, w);
    }
  }

  lemma ResponseInOrder(x: Node, y: Node, m: Mail)
    requires LookupInv(x) && Answering(y.p, y.heard) && WireInv(x, y) && WireInv(y, x)
    requires x.mailbox != [] && m == x.mailbox[0] && IsResponse(m)
    ensures x.p.channel.Open? && m.data.msg.id == |Resps(x.heard)| + 1 <= |x.p.log.asked|
  {
    assert x.mailbox == [m] + x.mailbox[1..];
    ResponseIsNext(x, y, m, x.mailbox[1..]);
    HeardInOrder(x, y, m);
  }

  lemma AwaitingAfterResponse(p: Portal, heard: seq<Packet>, m: Mail, w: World)
    requires Awaiting(p, heard) && p.status.Running? && p.channel.Open? && IsResponse(m)
    requires m.data.msg.id == |Resps(heard)| + 1 <= |p.log.asked|
    ensures Awaiting(Turn(p, m, w), heard + Heard(m))
  {
    OpenIds(p.openRequests, p.log.asked, |Resps(heard)|, m.data.msg.id);
    ResponseTurn(p, m, w);
    TurnComplains(p, m, w);
    AwaitingAnswered(p, Turn(p, m, w), heard, m);
  }

  lemma OpenIds(open: map<nat, Port>, asked: seq<(string, Port)>, m: nat, id: nat)
    requires OpenOk(open, asked, m) && m < id <= |asked|
    ensures id in open && open[id] == asked[id - 1].1
  {
  }

  lemma AwaitingAfterQuery(p: Portal, heard: seq<Packet>, m: Mail, w: World)
    requires Awaiting(p, heard) && Asking(p) && p.status.Running? && m.QueryNamedRemoteActor?
    ensures Awaiting(Turn(p, m, w), heard + Heard(m))
  {
    assert heard + [] == heard;
    QueryTurn(p, m, w);
    TurnComplains(p, m, w);
    OpenAsked(p.openRequests, p.log.asked, |Resps(heard)|, m.name, m.port);
    AnsweredAsked(p.log.answered, p.log.asked, Resps(heard), (m.name, m.port));
  }

  lemma OpenAsked(open: map<nat, Port>, asked: seq<(string, Port)>, m: nat, name: string, port: Port)
    requires OpenOk(open, asked, m)
    ensures OpenOk(open[|asked| + 1 := port], asked + [(name, port)], m)
  {
  }

  lemma AnsweredAsked(answered: seq<(Port, Lookup)>, asked: seq<(string, Port)>, resps: seq<(nat, Lookup)>,
                      q: (string, Port))
    requires AnsweredOk(answered, asked, resps)
    ensures AnsweredOk(answered, asked + [q], resps)
  {
  }

  lemma AwaitingAfterOther(p: Portal, heard: seq<Packet>, m: Mail, w: World)
    requires Awaiting(p, heard) && p.status.Running? && !IsResponse(m) && !m.QueryNamedRemoteActor?
    ensures Awaiting(Turn(p, m, w), heard + Heard(m))
  {
    HeardLookups(heard, m);
    assert Resps(heard) + [] == Resps(heard);
    TurnFramed(p, m, w);
    TurnComplains(p, m, w);
  }

  lemma AwaitingAnswered(p: Portal, q: Portal, heard: seq<Packet>, m: Mail)
    requires Awaiting(p, heard) && p.status.Running? && IsResponse(m)
    requires m.data.msg.id == |Resps(heard)| + 1 <= |p.log.asked| && m.data.msg.id in p.openRequests
    requires p.openRequests[m.data.msg.id] == p.log.asked[m.data.msg.id - 1].1
    requires q.log.asked == p.log.asked && q.openRequests == p.openRequests - {m.data.msg.id}
    requires q.status.Running? ==>
      q.log.answered == p.log.answered + [(p.openRequests[m.data.msg.id], m.data.msg.result)]
    requires UnknownRequest !in q.log.complaints
    ensures Awaiting(q, heard + Heard(m))
  {
    HeardLookups(heard, m);
    OpenAnswered(p.openRequests, p.log.asked, |Resps(heard)|);
    if q.status.Running? {
      AnsweredNext(p.log.answered, p.log.asked, Resps(heard), m.data.msg.id, m.data.msg.result);
    }
  }

  lemma OpenAnswered(open: map<nat, Port>, asked: seq<(string, Port)>, m: nat)
    requires OpenOk(open, asked, m) && m < |asked|
    ensures OpenOk(open - {m + 1}, asked, m + 1)
  {
  }

  lemma AnsweredNext(answered: seq<(Port, Lookup)>, asked: seq<(string, Port)>, resps: seq<(nat, Lookup)>, id: nat,
                     result: Lookup)
    requires AnsweredOk(answered, asked, resps) && |resps| < |asked|
    ensures AnsweredOk(answered + [(asked[|resps|].1, result)], asked, resps + [(id, result)])
  {
  }

  lemma LookupStep(cx: Formats, x: Node, y: Node, act: Action)
    requires WireInv(x, y) && WireInv(y, x) && LookupInv(x) && LookupInv(y) && Enabled(cx, x, y, act)
    ensures LookupInv(Apply(cx, x, y, act))
  {
    if act.TakeTurn? {
      var m := x.mailbox[0];
      AskingAfterTurn(x.p, m, act.w);
      if IsRequest(m) {
        HeardInOrder(x, y, m);
      }
      AnsweringAfterTurn(x.p, x.heard, m, act.w);
      AwaitingAfterTurn(x, y, m, act.w);
      LookupSettled(x, act.w);
    } else {
      SamePortal(cx, x, y, act);
    }
  }

  lemma LookupSettled(x: Node, w: World)
    requires x.mailbox != []
    requires Asking(Turn(x.p, x.mailbox[0], w))
    requires Answering(Turn(x.p, x.mailbox[0], w), x.heard + Heard(x.mailbox[0]))
    requires Awaiting(Turn(x.p, x.mailbox[0], w), x.heard + Heard(x.mailbox[0]))
    ensures LookupInv(AfterTurn(x, w))
  {
  }

  // ------------------------------------------------------------------------------------------------
  // Conservation

  /** Requests `x` has sent that `y` has not handled. */
  function RequestsInFlight(x: Node, y: Node): seq<(nat, string)>
    requires Wired(y, x)
  {
    HeardIsPrefix(y, x);
    LookupsPrefix(y.heard, x.p.log.sent);
    Reqs(x.p.log.sent)[|Reqs(y.heard)|..]
  }

  /** Answers `y` has sent that `x` has not handled. */
  function AnswersInFlight(x: Node, y: Node): seq<(nat, Lookup)>
    requires Wired(x, y)
  {
    HeardIsPrefix(x, y);
    LookupsPrefix(x.heard, y.p.log.sent);
    Resps(y.p.log.sent)[|Resps(x.heard)|..]
  }

  function RequestIds(s: seq<(nat, string)>): (ids: seq<nat>)
    ensures |ids| == |s| && forall i :: 0 <= i < |s| ==> ids[i] == s[i].0
  {
    if s == [] then [] else [s[0].0] + RequestIds(s[1..])
  }

  function AnswerIds(s: seq<(nat, Lookup)>): (ids: seq<nat>)
    ensures |ids| == |s| && forall i :: 0 <= i < |s| ==> ids[i] == s[i].0
  {
    if s == [] then [] else [s[0].0] + AnswerIds(s[1..])
  }

  /** `from`, `from + 1`, and so on. */
  predicate Counts(s: seq<nat>, from: nat) {
    forall i :: 0 <= i < |s| ==> s[i] == from + i
  }

  /** While both portals run, every open request is in exactly one place: on its way to the peer, or on its way back as
      an answer. None is lost, duplicated or invented, and all are below the next number. */
  lemma LookupsConserved(x: Node, y: Node)
    requires WireInv(x, y) && WireInv(y, x) && LookupInv(x) && LookupInv(y)
    requires x.p.status.Running? && y.p.status.Running?
    ensures multiset(x.p.openRequests.Keys)
         == multiset(RequestIds(RequestsInFlight(x, y))) + multiset(AnswerIds(AnswersInFlight(x, y)))
    ensures forall id :: id in x.p.openRequests ==> 0 < id < x.p.nextRequestId
  {
    RequestsConsecutive(x, y);
    AnswersConsecutive(x, y);
    var a, b := RequestIds(RequestsInFlight(x, y)), AnswerIds(AnswersInFlight(x, y));
    CountsAppend(b, a, |Resps(x.heard)| + 1);
    Consecutive(b + a, |Resps(x.heard)| + 1, x.p.openRequests.Keys);
    assert multiset(b + a) == multiset(b) + multiset(a);
  }

  lemma RequestsConsecutive(x: Node, y: Node)
    requires WireInv(x, y) && WireInv(y, x) && LookupInv(x) && x.p.status.Running?
    ensures var a, k := RequestIds(RequestsInFlight(x, y)), |Reqs(y.heard)|;
      |a| == |x.p.log.asked| - k && Counts(a, k + 1)
  {
    HeardIsPrefix(y, x);
    LookupsPrefix(y.heard, x.p.log.sent);
  }

  lemma AnswersConsecutive(x: Node, y: Node)
    requires WireInv(x, y) && WireInv(y, x) && LookupInv(x) && LookupInv(y)
    requires x.p.status.Running? && y.p.status.Running?
    ensures var b, m := AnswerIds(AnswersInFlight(x, y)), |Resps(x.heard)|;
      |b| == |Reqs(y.heard)| - m && Counts(b, m + 1)
  {
    HeardIsPrefix(x, y);
    HeardIsPrefix(y, x);
    LookupsPrefix(y.heard, x.p.log.sent);
    LookupsPrefix(x.heard, y.p.log.sent);
    var b, m := AnswerIds(AnswersInFlight(x, y)), |Resps(x.heard)|;
    forall i | 0 <= i < |b| ensures b[i] == m + 1 + i {
      assert b[i] == Resps(y.p.log.sent)[m + i].0 == Reqs(y.heard)[m + i].0 == Reqs(x.p.log.sent)[m + i].0;
    }
  }

  lemma CountsAppend(b: seq<nat>, a: seq<nat>, from: nat)
    requires Counts(b, from) && Counts(a, from + |b|)
    ensures Counts(b + a, from)
  {
  }

  lemma {:induction false} Consecutive(s: seq<nat>, from: nat, ids: set<nat>)
    requires Counts(s, from)
    requires forall id :: id in ids <==> from <= id < from + |s|
    ensures multiset(s) == multiset(ids)
    decreases |s|
  {
    if s == [] {
      assert ids == {};
    } else {
      Consecutive(s[1..], from + 1, ids - {from});
      assert s == [from] + s[1..];
      assert ids == {from} + (ids - {from});
      assert multiset(ids) == multiset{from} + multiset(ids - {from});
    }
  }
}
