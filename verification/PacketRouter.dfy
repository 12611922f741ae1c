/** The packet router: which modules send, which one carries REMB, and which one pads. A module is
    known by its fixed description; what it does at a call is an input of that call. */
module PacketRouter {
  import opened Collections

  const SEQUENCE_RANGE := 0x1_0000
  const COUNTER_RANGE := 0x1_0000_0000_0000_0000

  /** The low 16 bits of a counter. */
  function SequenceNumber(counter: nat): (low: nat)
    ensures low < 0x1_0000 && exists high: nat :: counter == 0x1_0000 * high + low
  {
    assert counter == 0x1_0000 * (counter / SEQUENCE_RANGE) + counter % SEQUENCE_RANGE;
    counter % SEQUENCE_RANGE
  }

  datatype Module = Module(id: nat, ssrc: nat, rtxSsrc: Option<nat>, flexfecSsrc: Option<nat>, audio: bool) {
    /** The numbers a module is registered under, in that order. */
    function Ssrcs(): seq<nat> {
      [ssrc] + (if rtxSsrc.Some? then [rtxSsrc.value] else []) + (if flexfecSsrc.Some? then [flexfecSsrc.value] else [])
    }
  }

  predicate Distinct<T(==)>(s: seq<T>) {
    forall i, j :: 0 <= i < j < |s| ==> s[i] != s[j]
  }

  /** No audio module comes before a non-audio one. */
  predicate AudioLast(list: seq<Module>) {
    forall i, j :: 0 <= i < j < |list| && list[i].audio ==> list[j].audio
  }

  /** All occurrences of `m` taken out. */
  function Without(list: seq<Module>, m: Module): (r: seq<Module>)
    ensures forall x :: x in r <==> x in list && x != m
  {
    if list == [] then []
    else if list[0] == m then Without(list[1..], m)
    else [list[0]] + Without(list[1..], m)
  }

  /** Taking `m` out of a list is taking it out of the parts: the others keep their order and number. */
  lemma {:induction false} WithoutInParts(a: seq<Module>, b: seq<Module>, m: Module)
    ensures Without(a + b, m) == Without(a, m) + Without(b, m)
    ensures forall x: Module :: Without([x], m) == if x == m then [] else [x]
  {
    if a == [] {
      assert a + b == b;
    } else {
      assert (a + b)[1..] == a[1..] + b;
      WithoutInParts(a[1..], b, m);
    }
    forall x: Module ensures Without([x], m) == if x == m then [] else [x] {
      assert [x][1..] == [] && [x][0] == x;
    }
  }

  lemma {:induction false} WithoutKeepsAudioLast(list: seq<Module>, m: Module)
    requires AudioLast(list)
    ensures AudioLast(Without(list, m))
  {
    if list != [] {
      WithoutKeepsAudioLast(list[1..], m);
      var rest := Without(list[1..], m);
      if list[0] != m && list[0].audio {
        forall j | 0 <= j < |rest|
          ensures rest[j].audio
        {
          assert rest[j] in rest;
          var k :| 0 <= k < |list[1..]| && list[1..][k] == rest[j];
          assert list[k + 1] == rest[j];
        }
      }
    }
  }

  lemma {:induction false} DistinctWithout(list: seq<Module>, m: Module)
    requires Distinct(list)
    ensures Distinct(Without(list, m))
  {
    if list != [] {
      DistinctWithout(list[1..], m);
      var rest := Without(list[1..], m);
      if list[0] != m {
        assert list[0] !in list[1..];
        assert forall j :: 0 <= j < |rest| ==> rest[j] in rest;
      }
    }
  }

  lemma AddedKeepsAudioLast(list: seq<Module>, m: Module)
    requires AudioLast(list)
    ensures AudioLast(if m.audio then list + [m] else [m] + list)
  {
  }

  /** A list with some copies of a module put in: an audio module at the end, any other in front. */
  ghost function Listed(list: seq<Module>, m: Module, copies: nat): seq<Module> {
    if m.audio then list + seq(copies, i => m) else seq(copies, i => m) + list
  }

  lemma ListedMembers(list: seq<Module>, m: Module, copies: nat)
    requires copies > 0
    ensures forall x :: x in Listed(list, m, copies) <==> x in list || x == m
  {
    assert seq(copies, i => m)[0] == m;
  }

  lemma ListedAgain(list: seq<Module>, m: Module, copies: nat)
    ensures Listed(Listed(list, m, copies), m, 1) == Listed(list, m, copies + 1)
  {
    assert seq(1, i => m) == [m] && seq(copies, i => m) + [m] == seq(copies + 1, i => m) == [m] + seq(copies, i => m);
  }

  /** The module that should carry REMB: the first sender candidate, else the first receiver one. */
  function Choice(senders: seq<Module>, receivers: seq<Module>): (c: Option<Module>)
    ensures |senders| > 0 ==> c == Some(senders[0])
    ensures |senders| == 0 < |receivers| ==> c == Some(receivers[0])
    ensures |senders| == |receivers| == 0 ==> c == None
  {
    if senders != [] then Some(senders[0])
    else if receivers != [] then Some(receivers[0])
    else None
  }

  /** The map and the list name the same modules, each under all its numbers. */
  ghost predicate Registered(table: map<nat, Module>, list: seq<Module>) {
    && (forall n :: n in table ==> table[n] in list && n in table[n].Ssrcs())
    && (forall m, n :: m in list && n in m.Ssrcs() ==> n in table && table[n] == m)
  }

  ghost predicate Candidates(candidates: seq<Module>, members: seq<Module>) {
    Distinct(candidates) && forall m :: m in candidates ==> m in members
  }

  /** The modules with REMB set after the active one changes: only the one that was active loses it. */
  ghost function Keeping(on: set<Module>, before: Option<Module>, after: Option<Module>): set<Module> {
    if before.Some? && after != before then on - {before.value} else on
  }

  /** Of the list, `m` at `i` is the first to have padding. */
  ghost predicate FirstToPad(list: seq<Module>, i: nat, m: Module, supports: Module -> bool, from: Module -> seq<nat>)
    requires i < |list|
  {
    list[i] == m && forall j :: 0 <= j < i && supports(list[j]) ==> from(list[j]) == []
  }

  class PacketRouter {
    var sendModulesMap: map<nat, Module>
    var sendModulesList: seq<Module>
    var lastSendModule: Option<Module>
    var rtcpFeedbackSenders: seq<Module>
    var senderRembCandidates: seq<Module>
    var receiverRembCandidates: seq<Module>
    var activeRembModule: Option<Module>
    var transportSeq: nat
    var pendingFec: seq<nat>

    /** The modules that have REMB set, the first transport sequence number, and how many were given. */
    ghost var rembOn: set<Module>
    ghost var startSeq: nat
    ghost var stamped: nat

    ghost predicate SendersOk()
      reads `sendModulesMap, `sendModulesList, `lastSendModule
    {
      && Registered(sendModulesMap, sendModulesList)
      && AudioLast(sendModulesList)
      && (lastSendModule.Some? ==> lastSendModule.value in sendModulesList)
    }

    ghost predicate RembOk()
      reads `activeRembModule, `senderRembCandidates, `receiverRembCandidates, `rembOn, `sendModulesList, `rtcpFeedbackSenders
    {
      && activeRembModule == Choice(senderRembCandidates, receiverRembCandidates)
      && (forall m :: m in rembOn ==> activeRembModule == Some(m))
      && Candidates(senderRembCandidates, sendModulesList)
      && Candidates(receiverRembCandidates, rtcpFeedbackSenders)
      && Distinct(rtcpFeedbackSenders)
    }

    ghost predicate NumbersOk()
      reads `transportSeq, `startSeq, `stamped
    {
      transportSeq < COUNTER_RANGE && SequenceNumber(transportSeq) == SequenceNumber(startSeq + stamped)
    }

    ghost predicate Valid()
      reads this
    {
      SendersOk() && RembOk() && NumbersOk()
    }

    constructor (startTransportSeq: nat)
      requires startTransportSeq < SEQUENCE_RANGE
      ensures Valid() && sendModulesList == [] && rembOn == {} && startSeq == startTransportSeq && stamped == 0
    {
      sendModulesMap, sendModulesList, lastSendModule := map[], [], None;
      rtcpFeedbackSenders, senderRembCandidates, receiverRembCandidates := [], [], [];
      activeRembModule, transportSeq, pendingFec := None, startTransportSeq, [];
      rembOn, startSeq, stamped := {}, startTransportSeq, 0;
    }

    // ----- REMB -----

    /** Takes REMB off the active module. */
    method UnsetActiveRembModule()
      requires activeRembModule.Some?
      modifies `activeRembModule, `rembOn
      ensures activeRembModule == None && rembOn == old(rembOn) - {old(activeRembModule).value}
    {
      rembOn := rembOn - {activeRembModule.value};
      activeRembModule := None;
    }

    /** Makes the module that should carry REMB the active one; another one loses it first. */
    method DetermineActiveRembModule()
      requires forall m :: m in rembOn ==> activeRembModule == Some(m)
      modifies `activeRembModule, `rembOn
      ensures activeRembModule == Choice(senderRembCandidates, receiverRembCandidates)
      ensures |senderRembCandidates| > 0 ==> activeRembModule == Some(senderRembCandidates[0])
      ensures forall m :: m in rembOn ==> activeRembModule == Some(m)
      ensures rembOn == Keeping(old(rembOn), old(activeRembModule), activeRembModule)
    {
      var newActive := Choice(senderRembCandidates, receiverRembCandidates);
      if newActive != activeRembModule && activeRembModule.Some? {
        UnsetActiveRembModule();
      }
      activeRembModule := newActive;
    }

    method AddRembModuleCandidate(m: Module, mediaSender: bool)
      requires RembOk()
      requires if mediaSender then m !in senderRembCandidates && m in sendModulesList
        else m !in receiverRembCandidates && m in rtcpFeedbackSenders
      modifies `senderRembCandidates, `receiverRembCandidates, `activeRembModule, `rembOn
      ensures RembOk()
      ensures if mediaSender
        then senderRembCandidates == old(senderRembCandidates) + [m] && receiverRembCandidates == old(receiverRembCandidates)
        else senderRembCandidates == old(senderRembCandidates) && receiverRembCandidates == old(receiverRembCandidates) + [m]
      ensures rembOn == Keeping(old(rembOn), old(activeRembModule), activeRembModule)
    {
      if mediaSender {
        senderRembCandidates := senderRembCandidates + [m];
      } else {
        receiverRembCandidates := receiverRembCandidates + [m];
      }
      DetermineActiveRembModule();
    }

    method MaybeRemoveRembModuleCandidate(m: Module, mediaSender: bool)
      requires RembOk()
      modifies `senderRembCandidates, `receiverRembCandidates, `activeRembModule, `rembOn
      ensures RembOk()
      ensures senderRembCandidates == if mediaSender then Without(old(senderRembCandidates), m) else old(senderRembCandidates)
      ensures receiverRembCandidates == if mediaSender then old(receiverRembCandidates) else Without(old(receiverRembCandidates), m)
      ensures var was := m in (if mediaSender then old(senderRembCandidates) else old(receiverRembCandidates)) && old(activeRembModule) == Some(m);
        rembOn == old(rembOn) - if was then {m} else {}
    {
      var candidates := if mediaSender then senderRembCandidates else receiverRembCandidates;
      if m !in candidates {
        NothingWithout(candidates, m);
        return;
      }
      if activeRembModule == Some(m) {
        UnsetActiveRembModule();
      }
      DistinctWithout(candidates, m);
      FirstKept(candidates, m);
      if mediaSender {
        senderRembCandidates := Without(senderRembCandidates, m);
      } else {
        receiverRembCandidates := Without(receiverRembCandidates, m);
      }
      DetermineActiveRembModule();
    }

    /** Sends REMB on the active module only. */
    method SendRemb() returns (carrier: Option<Module>)
      requires Valid()
      modifies `rembOn
      ensures Valid() && carrier == Choice(senderRembCandidates, receiverRembCandidates)
      ensures rembOn == if carrier.Some? then {carrier.value} else {}
    {
      carrier := activeRembModule;
      if carrier.None? {
        return;
      }
      rembOn := rembOn + {carrier.value};
    }

    // ----- Modules -----

    method AddSendRtpModuleToMap(m: Module, ssrc: nat)
      requires ssrc !in sendModulesMap && AudioLast(sendModulesList)
      modifies `sendModulesMap, `sendModulesList
      ensures AudioLast(sendModulesList) && sendModulesMap == old(sendModulesMap)[ssrc := m]
      ensures sendModulesList == Listed(old(sendModulesList), m, 1)
      ensures forall x :: x in sendModulesList <==> x in old(sendModulesList) || x == m
    {
      AddedKeepsAudioLast(sendModulesList, m);
      ListedMembers(sendModulesList, m, 1);
      assert seq(1, i => m) == [m];
      if m.audio {
        sendModulesList := sendModulesList + [m];
      } else {
        sendModulesList := [m] + sendModulesList;
      }
      sendModulesMap := sendModulesMap[ssrc := m];
    }

    method RemoveSendRtpModuleFromMap(ssrc: nat)
      requires ssrc in sendModulesMap && AudioLast(sendModulesList)
      modifies `sendModulesMap, `sendModulesList
      ensures AudioLast(sendModulesList) && sendModulesMap == old(sendModulesMap) - {ssrc}
      ensures sendModulesList == Without(old(sendModulesList), old(sendModulesMap)[ssrc])
    {
      WithoutKeepsAudioLast(sendModulesList, sendModulesMap[ssrc]);
      sendModulesList := Without(sendModulesList, sendModulesMap[ssrc]);
      sendModulesMap := sendModulesMap - {ssrc};
    }

    /** Registers a module under its numbers, none of which may be taken. */
    method Register(m: Module)
      requires Registered(sendModulesMap, sendModulesList) && AudioLast(sendModulesList)
      requires Distinct(m.Ssrcs()) && forall n :: n in m.Ssrcs() ==> n !in sendModulesMap
      modifies `sendModulesMap, `sendModulesList
      ensures Registered(sendModulesMap, sendModulesList) && AudioLast(sendModulesList)
      ensures sendModulesList == Listed(old(sendModulesList), m, |m.Ssrcs()|)
    {
      ghost var table, list, done := sendModulesMap, sendModulesList, {m.ssrc};
      hide Registered, AudioLast, Distinct, Joined, Listed, Module.Ssrcs;
      SsrcsOf(m);
      JoinStart(table, list, m);
      AddSendRtpModuleToMap(m, m.ssrc);
      JoinStep(table, list, m, {}, table, list, m.ssrc, sendModulesMap, sendModulesList);
      if m.rtxSsrc.Some? {
        ghost var t, l := sendModulesMap, sendModulesList;
        JoinFree(table, list, m, done, t, l, m.rtxSsrc.value);
        AddSendRtpModuleToMap(m, m.rtxSsrc.value);
        JoinStep(table, list, m, done, t, l, m.rtxSsrc.value, sendModulesMap, sendModulesList);
        ListedAgain(list, m, 1);
        done := done + {m.rtxSsrc.value};
      }
      if m.flexfecSsrc.Some? {
        ghost var t, l := sendModulesMap, sendModulesList;
        ListedAgain(list, m, if m.rtxSsrc.Some? then 2 else 1);
        JoinFree(table, list, m, done, t, l, m.flexfecSsrc.value);
        AddSendRtpModuleToMap(m, m.flexfecSsrc.value);
        JoinStep(table, list, m, done, t, l, m.flexfecSsrc.value, sendModulesMap, sendModulesList);
        done := done + {m.flexfecSsrc.value};
      }
      JoinEnd(table, list, m, done, sendModulesMap, sendModulesList);
    }

    method Unregister(m: Module)
      requires Registered(sendModulesMap, sendModulesList) && AudioLast(sendModulesList)
      requires m in sendModulesList && Distinct(m.Ssrcs())
      modifies `sendModulesMap, `sendModulesList
      ensures Registered(sendModulesMap, sendModulesList) && AudioLast(sendModulesList)
      ensures sendModulesList == Without(old(sendModulesList), m)
    {
      ghost var table, list, done := sendModulesMap, sendModulesList, {m.ssrc};
      hide Registered, AudioLast, Distinct, Departed, Without, Module.Ssrcs;
      SsrcsOf(m);
      LeaveStart(table, list, m);
      LeaveTaken(table, list, m, {}, table, list, m.ssrc);
      RemoveSendRtpModuleFromMap(m.ssrc);
      LeaveStep(table, list, m, {}, table, list, m.ssrc, sendModulesMap, sendModulesList);
      NothingWithout(sendModulesList, m);
      if m.rtxSsrc.Some? {
        ghost var t, l := sendModulesMap, sendModulesList;
        LeaveTaken(table, list, m, done, t, l, m.rtxSsrc.value);
        RemoveSendRtpModuleFromMap(m.rtxSsrc.value);
        LeaveStep(table, list, m, done, t, l, m.rtxSsrc.value, sendModulesMap, sendModulesList);
        done := done + {m.rtxSsrc.value};
      }
      if m.flexfecSsrc.Some? {
        ghost var t, l := sendModulesMap, sendModulesList;
        LeaveTaken(table, list, m, done, t, l, m.flexfecSsrc.value);
        RemoveSendRtpModuleFromMap(m.flexfecSsrc.value);
        LeaveStep(table, list, m, done, t, l, m.flexfecSsrc.value, sendModulesMap, sendModulesList);
        done := done + {m.flexfecSsrc.value};
      }
      LeaveEnd(table, list, m, done, sendModulesMap, sendModulesList);
    }

    method AddSendRtpModule(m: Module, rembCandidate: bool, rtxPadding: bool)
      requires Valid() && Distinct(m.Ssrcs()) && forall n :: n in m.Ssrcs() ==> n !in sendModulesMap
      modifies `sendModulesMap, `sendModulesList, `lastSendModule, `senderRembCandidates, `receiverRembCandidates, `activeRembModule, `rembOn
      ensures Valid() && sendModulesList == Listed(old(sendModulesList), m, |m.Ssrcs()|)
      ensures senderRembCandidates == old(senderRembCandidates) + if rembCandidate then [m] else []
      ensures lastSendModule == if rtxPadding then Some(m) else old(lastSendModule)
      ensures rembOn == Keeping(old(rembOn), old(activeRembModule), activeRembModule)
    {
      hide AudioLast, Registered, Listed;
      NotListed(sendModulesMap, sendModulesList, m);
      ListedMembers(sendModulesList, m, |m.Ssrcs()|);
      Register(m);
      if rtxPadding {
        lastSendModule := Some(m);
      }
      if rembCandidate {
        AddRembModuleCandidate(m, true);
      }
    }

    method RemoveSendRtpModule(m: Module)
      requires Valid() && m in sendModulesList && Distinct(m.Ssrcs())
      modifies `sendModulesMap, `sendModulesList, `lastSendModule, `senderRembCandidates, `receiverRembCandidates, `activeRembModule, `rembOn
      ensures Valid() && sendModulesList == Without(old(sendModulesList), m)
      ensures m !in rembOn || m in receiverRembCandidates
      ensures senderRembCandidates == Without(old(senderRembCandidates), m)
      ensures lastSendModule == if old(lastSendModule) == Some(m) then None else old(lastSendModule)
      ensures rembOn == old(rembOn) - if m in old(senderRembCandidates) && old(activeRembModule) == Some(m) then {m} else {}
    {
      hide AudioLast, Registered;
      MaybeRemoveRembModuleCandidate(m, true);
      Unregister(m);
      if lastSendModule == Some(m) {
        lastSendModule := None;
      }
    }

    method AddReceiveRtpModule(m: Module, rembCandidate: bool)
      requires Valid() && m !in rtcpFeedbackSenders
      modifies `rtcpFeedbackSenders, `senderRembCandidates, `receiverRembCandidates, `activeRembModule, `rembOn
      ensures Valid() && rtcpFeedbackSenders == old(rtcpFeedbackSenders) + [m]
      ensures receiverRembCandidates == old(receiverRembCandidates) + if rembCandidate then [m] else []
      ensures rembOn == Keeping(old(rembOn), old(activeRembModule), activeRembModule)
    {
      hide AudioLast, Registered;
      rtcpFeedbackSenders := rtcpFeedbackSenders + [m];
      if rembCandidate {
        AddRembModuleCandidate(m, false);
      }
    }

    method RemoveReceiveRtpModule(m: Module)
      requires Valid() && m in rtcpFeedbackSenders
      modifies `rtcpFeedbackSenders, `senderRembCandidates, `receiverRembCandidates, `activeRembModule, `rembOn
      ensures Valid() && rtcpFeedbackSenders == Without(old(rtcpFeedbackSenders), m)
      ensures m !in rembOn || m in senderRembCandidates
      ensures receiverRembCandidates == Without(old(receiverRembCandidates), m)
      ensures rembOn == old(rembOn) - if m in old(receiverRembCandidates) && old(activeRembModule) == Some(m) then {m} else {}
    {
      hide AudioLast, Registered;
      MaybeRemoveRembModuleCandidate(m, false);
      DistinctWithout(rtcpFeedbackSenders, m);
      rtcpFeedbackSenders := Without(rtcpFeedbackSenders, m);
    }

    // ----- Packets -----

    method NextSequence() returns (sequence: Option<nat>)
      requires NumbersOk()
      modifies `transportSeq, `stamped
      ensures NumbersOk() && stamped == old(stamped) + 1
      ensures sequence == Some(SequenceNumber(startSeq + stamped))
    {
      NextNumber(transportSeq, startSeq + stamped);
      transportSeq := (transportSeq + 1) % COUNTER_RANGE;
      stamped := stamped + 1;
      sequence := Some(SequenceNumber(transportSeq));
    }

    /** Hands a packet to the module of its number; a module that took it and can pad with payload
        becomes the last send module. */
    method HandOver(ssrc: nat, accepted: bool, rtxPadding: bool, fec: seq<nat>) returns (carrier: Option<Module>)
      requires SendersOk()
      modifies `lastSendModule, `pendingFec
      ensures SendersOk()
      ensures carrier.Some? <==> ssrc in sendModulesMap
      ensures carrier.Some? ==> carrier.value in sendModulesList && ssrc in carrier.value.Ssrcs()
      ensures lastSendModule == if carrier.Some? && accepted && rtxPadding then carrier else old(lastSendModule)
      ensures pendingFec == old(pendingFec) + if carrier.Some? && accepted then fec else []
    {
      hide AudioLast;
      if ssrc !in sendModulesMap {
        return None;
      }
      carrier := Some(sendModulesMap[ssrc]);
      if !accepted {
        return;
      }
      if rtxPadding {
        lastSendModule := carrier;
      }
      pendingFec := pendingFec + fec;
    }

    /** Stamps a packet that wants a transport sequence number and hands it over. */
    method SendPacket(ssrc: nat, wantsSequence: bool, accepted: bool, rtxPadding: bool, fec: seq<nat>)
      returns (sequence: Option<nat>, carrier: Option<Module>)
      requires Valid()
      modifies `transportSeq, `stamped, `lastSendModule, `pendingFec
      ensures Valid()
      ensures stamped == old(stamped) + (if wantsSequence then 1 else 0)
      ensures sequence == if wantsSequence then Some(SequenceNumber(startSeq + stamped)) else None
      ensures carrier.Some? <==> ssrc in sendModulesMap
      ensures carrier.Some? ==> carrier.value in sendModulesList && ssrc in carrier.value.Ssrcs()
      ensures lastSendModule == if carrier.Some? && accepted && rtxPadding then carrier else old(lastSendModule)
      ensures pendingFec == old(pendingFec) + if carrier.Some? && accepted then fec else []
    {
      hide PacketRouter.NumbersOk, PacketRouter.SendersOk, PacketRouter.RembOk, SequenceNumber, AudioLast, Registered, Candidates, Distinct, Choice;
      sequence := None;
      if wantsSequence {
        sequence := NextSequence();
      }
      carrier := HandOver(ssrc, accepted, rtxPadding, fec);
    }

    /** Hands out the error-correction packets fetched so far, each once. */
    method FetchFec() returns (packets: seq<nat>)
      requires Valid()
      modifies `pendingFec
      ensures Valid() && packets == old(pendingFec) && pendingFec == []
    {
      packets := pendingFec;
      pendingFec := [];
    }

    /** Padding from the last send module if it can give some; else from the first module in the
        list that can, so that an audio module pads only if no other module can. */
    method GeneratePadding(rtxPadding: bool, fromLast: seq<nat>, supports: Module -> bool, from: Module -> seq<nat>)
      returns (packets: seq<nat>)
      requires Valid()
      modifies `lastSendModule
      ensures Valid()
      ensures var last := if old(lastSendModule).Some? && rtxPadding then fromLast else [];
        if last != [] then packets == last && lastSendModule == old(lastSendModule)
        else if packets != [] then
          && lastSendModule.Some? && supports(lastSendModule.value) && packets == from(lastSendModule.value)
          && (exists i :: 0 <= i < |sendModulesList| && FirstToPad(sendModulesList, i, lastSendModule.value, supports, from))
          && (lastSendModule.value.audio ==> forall m :: m in sendModulesList && supports(m) && from(m) != [] ==> m.audio)
        else lastSendModule == old(lastSendModule) && forall m :: m in sendModulesList && supports(m) ==> from(m) == []
    {
      hide Registered;
      packets := if lastSendModule.Some? && rtxPadding then fromLast else [];
      if |packets| > 0 {
        return;
      }
      for i := 0 to |sendModulesList|
        invariant packets == [] && lastSendModule == old(lastSendModule)
        invariant forall j :: 0 <= j < i && supports(sendModulesList[j]) ==> from(sendModulesList[j]) == []
      {
        var m := sendModulesList[i];
        if supports(m) {
          packets := from(m);
          if |packets| > 0 {
            lastSendModule := Some(m);
            assert FirstToPad(sendModulesList, i, m, supports, from);
            return;
          }
        }
      }
    }

    function CurrentTransportSequenceNumber(): (n: nat)
      requires Valid()
      reads this
      ensures n == SequenceNumber(startSeq + stamped)
    {
      SequenceNumber(transportSeq)
    }
  }

  lemma FirstKept(list: seq<Module>, m: Module)
    ensures list != [] && list[0] != m ==> Without(list, m) != [] && Without(list, m)[0] == list[0]
  {
  }

  lemma {:induction false} NothingWithout(list: seq<Module>, m: Module)
    requires m !in list
    ensures Without(list, m) == list
  {
    if list != [] {
      NothingWithout(list[1..], m);
    }
  }

  lemma SsrcsOf(m: Module)
    ensures m.ssrc in m.Ssrcs() && |m.Ssrcs()| == 1 + (if m.rtxSsrc.Some? then 1 else 0) + (if m.flexfecSsrc.Some? then 1 else 0)
    ensures forall n :: n in m.Ssrcs() <==> n == m.ssrc || m.rtxSsrc == Some(n) || m.flexfecSsrc == Some(n)
    ensures Distinct(m.Ssrcs()) ==> m.rtxSsrc != Some(m.ssrc) && m.flexfecSsrc != Some(m.ssrc) && (m.rtxSsrc.Some? ==> m.rtxSsrc != m.flexfecSsrc)
  {
    var s := m.Ssrcs();
    assert s[0] == m.ssrc;
    assert m.rtxSsrc.Some? ==> s[1] == m.rtxSsrc.value;
    assert m.flexfecSsrc.Some? ==> s[|s| - 1] == m.flexfecSsrc.value;
  }

  /** `m` has been entered under the numbers in `done`, and nothing else has changed. */
  ghost predicate Joined(table: map<nat, Module>, list: seq<Module>, m: Module, done: set<nat>, t: map<nat, Module>, l: seq<Module>) {
    && t.Keys == table.Keys + done
    && (forall n :: n in t ==> t[n] == if n in done then m else if n in table then table[n] else m)
    && (forall x :: x in l <==> x in list || (x == m && done != {}))
  }

  lemma JoinStart(table: map<nat, Module>, list: seq<Module>, m: Module)
    ensures Joined(table, list, m, {}, table, list)
  {
  }

  lemma JoinFree(table: map<nat, Module>, list: seq<Module>, m: Module, done: set<nat>, t: map<nat, Module>, l: seq<Module>, n: nat)
    requires Joined(table, list, m, done, t, l) && n !in table && n !in done
    ensures n !in t
  {
  }

  lemma JoinStep(table: map<nat, Module>, list: seq<Module>, m: Module, done: set<nat>, t: map<nat, Module>, l: seq<Module>,
                 n: nat, t': map<nat, Module>, l': seq<Module>)
    requires Joined(table, list, m, done, t, l)
    requires t' == t[n := m] && forall x :: x in l' <==> x in l || x == m
    ensures Joined(table, list, m, done + {n}, t', l')
  {
  }

  lemma JoinEnd(table: map<nat, Module>, list: seq<Module>, m: Module, done: set<nat>, t: map<nat, Module>, l: seq<Module>)
    requires Registered(table, list) && Joined(table, list, m, done, t, l)
    requires done != {} && (forall n :: n in done <==> n in m.Ssrcs()) && forall n :: n in done ==> n !in table
    ensures Registered(t, l) && forall x :: x in l <==> x in list || x == m
  {
  }

  /** `m` has been taken out from under the numbers in `done`, and nothing else has changed. */
  ghost predicate Departed(table: map<nat, Module>, list: seq<Module>, m: Module, done: set<nat>, t: map<nat, Module>, l: seq<Module>) {
    && t.Keys == table.Keys - done
    && (forall n :: n in t ==> n in table && t[n] == table[n])
    && (forall x :: x in l <==> x in list && (x != m || done == {}))
  }

  lemma LeaveStart(table: map<nat, Module>, list: seq<Module>, m: Module)
    ensures Departed(table, list, m, {}, table, list)
  {
  }

  lemma LeaveTaken(table: map<nat, Module>, list: seq<Module>, m: Module, done: set<nat>, t: map<nat, Module>, l: seq<Module>, n: nat)
    requires Registered(table, list) && m in list && Departed(table, list, m, done, t, l) && n in m.Ssrcs() && n !in done
    ensures n in t && t[n] == m
  {
    assert n in table;
    assert n in t.Keys;
  }

  lemma LeaveStep(table: map<nat, Module>, list: seq<Module>, m: Module, done: set<nat>, t: map<nat, Module>, l: seq<Module>,
                  n: nat, t': map<nat, Module>, l': seq<Module>)
    requires Departed(table, list, m, done, t, l)
    requires t' == t - {n} && forall x :: x in l' <==> x in l && x != m
    ensures Departed(table, list, m, done + {n}, t', l')
  {
    assert t'.Keys == table.Keys - (done + {n});
  }

  lemma LeaveEnd(table: map<nat, Module>, list: seq<Module>, m: Module, done: set<nat>, t: map<nat, Module>, l: seq<Module>)
    requires Registered(table, list) && m in list && Departed(table, list, m, done, t, l)
    requires done != {} && forall n :: n in done <==> n in m.Ssrcs()
    ensures Registered(t, l) && forall x :: x in l <==> x in list && x != m
  {
    forall x, n | x in l && n in x.Ssrcs()
      ensures n in t && t[n] == x
    {
      assert n in table && table[n] == x;
      assert n in t.Keys;
    }
  }

  /** A module none of whose numbers is taken is not in the list. */
  lemma NotListed(table: map<nat, Module>, list: seq<Module>, m: Module)
    requires Registered(table, list) && forall n :: n in m.Ssrcs() ==> n !in table
    ensures m !in list
  {
    SsrcsOf(m);
  }

  /** Counting on in 64 bits and in 16 bits agree, wrap-around included. */
  lemma NextNumber(counter: nat, total: nat)
    requires counter < COUNTER_RANGE && SequenceNumber(counter) == SequenceNumber(total)
    ensures SequenceNumber((counter + 1) % COUNTER_RANGE) == SequenceNumber(total + 1)
  {
  }
}
