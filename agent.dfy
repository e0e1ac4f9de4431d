/** The voice agent's handling of inbound data packets: persona updates,
    session starts, and detection events gated by the alert memory; plus the
    filter applied to the user's final transcripts. */
module Agent {

  const InitialPersona: string := "Strict Devil Instructor"

  // Control event names; their values live in shared/constants.py, which is
  // not part of this model, and are taken to be the constant names.
  const PersonalityUpdate: string := "PERSONALITY_UPDATE"
  const SessionStart: string := "SESSION_START"

  const DescriptionMarker: string := "\n(Character Description: "

  /** A decoded packet: its event kind and its data dictionary. */
  datatype Packet = Packet(event: string, data: map<string, string>)

  /** What one `data_received` callback yields before dispatch: the payload
      failed to decode as UTF-8, the text failed to parse as a packet, or a
      packet. */
  datatype Inbound = DecodeFailed | ParseFailed | Received(packet: Packet)

  /** One call the dispatcher makes on the alert memory. */
  datatype MemoryCall =
    | ShouldAlertCall(kind: string)
    | AddEventCall(kind: string, data: map<string, string>)
    | ClearCall

  /** The dispatcher's observable state: the persona, every call made on the
      alert memory in order, and the packets a scolding was scheduled for. */
  datatype AgentState = AgentState(persona: string, calls: seq<MemoryCall>, scheduled: seq<Packet>)

  const InitialState: AgentState := AgentState(InitialPersona, [], [])

  /** `data.get(key, default)`. */
  function Lookup(data: map<string, string>, key: string, default: string): string
  {
    if key in data then data[key] else default
  }

  /** The persona a PERSONALITY_UPDATE installs: the name alone, or the name
      followed by the description marker, the description and ")". */
  function ComposePersona(data: map<string, string>): (persona: string)
    ensures var name := Lookup(data, "personality", "Unknown");
      |name| <= |persona| && persona[..|name|] == name &&
      (|persona| == |name| <==> Lookup(data, "description", "") == "")
  {
    var name := Lookup(data, "personality", "Unknown");
    var desc := Lookup(data, "description", "");
    if desc != "" then name + DescriptionMarker + desc + ")" else name
  }

  /** The persona text splits back into the name and description it came from. */
  lemma ComposePersonaParts(data: map<string, string>)
    ensures var persona, name, desc :=
      ComposePersona(data), Lookup(data, "personality", "Unknown"), Lookup(data, "description", "");
      (desc == "" ==> persona == name) &&
      (desc != "" ==>
        |persona| == |name| + |DescriptionMarker| + |desc| + 1 &&
        persona[..|name|] == name &&
        persona[|name|..|name| + |DescriptionMarker|] == DescriptionMarker &&
        persona[|name| + |DescriptionMarker|..|persona| - 1] == desc &&
        persona[|persona| - 1] == ')')
    ensures "personality" !in data ==> ComposePersona(data)[..7] == "Unknown"
  {
    var name, desc := Lookup(data, "personality", "Unknown"), Lookup(data, "description", "");
    if desc != "" {
      FourPartSlices(name, DescriptionMarker, desc, ")");
    }
  }

  /** Each part of `a + b + c + d` can be cut back out of it by position. */
  lemma FourPartSlices(a: string, b: string, c: string, d: string)
    ensures var w := a + b + c + d;
      |w| == |a| + |b| + |c| + |d| &&
      w[..|a|] == a && w[|a|..|a| + |b|] == b &&
      w[|a| + |b|..|a| + |b| + |c|] == c && w[|a| + |b| + |c|..] == d
  {
    var w := a + b + c + d;
    assert w[..|a|] == a;
    assert w[|a|..|a| + |b|] == b;
    assert w[|a| + |b|..|a| + |b| + |c|] == c;
    assert w[|a| + |b| + |c|..] == d;
  }

  /** One `on_data` callback as a state transition. `verdict` is what the alert
      memory's `should_alert` answers at that moment. */
  function Step(s: AgentState, inbound: Inbound, verdict: bool): (t: AgentState)
    ensures s.calls <= t.calls && s.scheduled <= t.scheduled
    ensures |t.scheduled| <= |s.scheduled| + 1
    ensures t.persona != s.persona ==>
      inbound.Received? && inbound.packet.event == PersonalityUpdate
    ensures !inbound.Received? ==> t == s
  {
    match inbound
    case DecodeFailed => s
    case ParseFailed => s
    case Received(p) =>
      if p.event == PersonalityUpdate then s.(persona := ComposePersona(p.data))
      else if p.event == SessionStart then s.(calls := s.calls + [ClearCall])
      else if verdict then
        s.(calls := s.calls + [ShouldAlertCall(p.event), AddEventCall(p.event, p.data)],
           scheduled := s.scheduled + [p])
      else s.(calls := s.calls + [ShouldAlertCall(p.event)])
  }

  // ---------------------------------------------------------------------------
  // The alert memory and the dispatcher
  // ---------------------------------------------------------------------------

  /** The agent's alert memory, seen only through the calls made on it; its
      cooldown rule lives in agent/memory.py, which is not part of this model. */
  class AlertMemory {
    ghost var trace: seq<MemoryCall>

    constructor ()
      ensures trace == []
    {
      trace := [];
    }

    /** `should_alert(kind)`, answering `verdict`. */
    method ShouldAlert(kind: string, verdict: bool) returns (alert: bool)
      modifies this
      ensures alert == verdict
      ensures trace == old(trace) + [ShouldAlertCall(kind)]
    {
      alert := verdict;
      trace := trace + [ShouldAlertCall(kind)];
    }

    method AddEvent(kind: string, data: map<string, string>)
      modifies this
      ensures trace == old(trace) + [AddEventCall(kind, data)]
    {
      trace := trace + [AddEventCall(kind, data)];
    }

    method Clear()
      modifies this
      ensures trace == old(trace) + [ClearCall]
    {
      trace := trace + [ClearCall];
    }
  }

  /** The state `entrypoint` keeps for one room: the current persona, the alert
      memory, and the scoldings handed to the event loop. */
  class AgentSession {
    var persona: string
    const memory: AlertMemory
    ghost var scheduled: seq<Packet>

    ghost function State(): AgentState
      reads this, memory
    {
      AgentState(persona, memory.trace, scheduled)
    }

    constructor ()
      ensures fresh(memory)
      ensures State() == InitialState
    {
      persona := InitialPersona;
      memory := new AlertMemory();
      scheduled := [];
    }

    /** `on_data`: failed decodes and parses change nothing; a persona update
        only rewrites the persona; a session start only clears the memory;
        every other event asks the memory first and records it and schedules
        one scolding only when the memory says to alert. */
    method OnData(inbound: Inbound, verdict: bool)
      modifies this, memory
      ensures State() == Step(old(State()), inbound, verdict)
    {
      if !inbound.Received? {
        return;
      }
      var packet := inbound.packet;
      if packet.event == PersonalityUpdate {
        persona := ComposePersona(packet.data);
        return;
      }
      if packet.event == SessionStart {
        memory.Clear();
        return;
      }
      var alert := memory.ShouldAlert(packet.event, verdict);
      if alert {
        memory.AddEvent(packet.event, packet.data);
        scheduled := scheduled + [packet];
      }
    }
  }

  // ---------------------------------------------------------------------------
  // Properties of one callback
  // ---------------------------------------------------------------------------

  /** A payload that does not decode or parse leaves persona, memory and
      scheduled scoldings as they were. */
  lemma DroppedPacketChangesNothing(s: AgentState, inbound: Inbound, verdict: bool)
    requires !inbound.Received?
    ensures Step(s, inbound, verdict) == s
  {
  }

  /** A persona update sets the persona and touches neither the memory nor the
      scheduled scoldings, whatever the memory would have answered. */
  lemma PersonalityUpdateRoute(s: AgentState, p: Packet, verdict: bool)
    requires p.event == PersonalityUpdate
    ensures var t := Step(s, Received(p), verdict);
      t.persona == ComposePersona(p.data) && t.calls == s.calls && t.scheduled == s.scheduled
  {
  }

  /** Applying the same persona update twice is the same as applying it once. */
  lemma PersonalityUpdateIdempotent(s: AgentState, p: Packet, v1: bool, v2: bool)
    requires p.event == PersonalityUpdate
    ensures Step(Step(s, Received(p), v1), Received(p), v2) == Step(s, Received(p), v1)
  {
  }

  /** A session start makes exactly one `clear` call and nothing else. */
  lemma SessionStartRoute(s: AgentState, p: Packet, verdict: bool)
    requires p.event == SessionStart
    ensures var t := Step(s, Received(p), verdict);
      t.persona == s.persona && t.calls == s.calls + [ClearCall] && t.scheduled == s.scheduled
  {
  }

  /** Any other event, known or not, is first put to `should_alert`; only on a
      positive answer does `add_event` follow and one scolding get scheduled,
      and on a negative answer no further memory call is made. */
  lemma GatedEventRoute(s: AgentState, p: Packet, verdict: bool)
    requires p.event != PersonalityUpdate && p.event != SessionStart
    ensures var t := Step(s, Received(p), verdict);
      t.persona == s.persona &&
      |t.calls| > |s.calls| && t.calls[..|s.calls|] == s.calls &&
      t.calls[|s.calls|] == ShouldAlertCall(p.event) &&
      (verdict <==> |t.calls| == |s.calls| + 2) &&
      (verdict ==> t.calls[|s.calls| + 1] == AddEventCall(p.event, p.data) && t.scheduled == s.scheduled + [p]) &&
      (!verdict ==> |t.calls| == |s.calls| + 1 && t.scheduled == s.scheduled)
  {
  }

  // ---------------------------------------------------------------------------
  // Properties of a run of callbacks
  // ---------------------------------------------------------------------------

  /** One callback together with the memory's answer, should it be asked. */
  datatype Arrival = Arrival(inbound: Inbound, verdict: bool)

  /** The state after handling `arrivals` in arrival order. */
  function Run(s: AgentState, arrivals: seq<Arrival>): AgentState
    decreases |arrivals|
  {
    if arrivals == [] then s
    else Run(Step(s, arrivals[0].inbound, arrivals[0].verdict), arrivals[1..])
  }

  /** Every `add_event` comes immediately after a `should_alert` for the same kind. */
  ghost predicate GatedAdds(calls: seq<MemoryCall>)
  {
    forall i :: 0 <= i < |calls| && calls[i].AddEventCall? ==>
      0 < i && calls[i - 1] == ShouldAlertCall(calls[i].kind)
  }

  /** The packets recorded by `add_event`, in call order. */
  function AddedPackets(calls: seq<MemoryCall>): seq<Packet>
    decreases |calls|
  {
    if calls == [] then []
    else
      var last := calls[|calls| - 1];
      AddedPackets(calls[..|calls| - 1]) +
        (if last.AddEventCall? then [Packet(last.kind, last.data)] else [])
  }

  /** The memory's record and the scheduled scoldings agree: one scolding per
      `add_event`, for the same packet, in the same order, and every
      `add_event` was gated. */
  ghost predicate Consistent(s: AgentState)
  {
    GatedAdds(s.calls) && AddedPackets(s.calls) == s.scheduled
  }

  /** Appending calls that are gated on their own, and do not start with an
      `add_event`, keeps every `add_event` gated. */
  lemma GatedAddsAppend(a: seq<MemoryCall>, b: seq<MemoryCall>)
    requires GatedAdds(a) && GatedAdds(b)
    requires b != [] ==> !b[0].AddEventCall?
    ensures GatedAdds(a + b)
  {
    var c := a + b;
    forall i | 0 <= i < |c| && c[i].AddEventCall?
      ensures 0 < i && c[i - 1] == ShouldAlertCall(c[i].kind)
    {
      if i >= |a| {
        assert c[i] == b[i - |a|];
        assert c[i - 1] == b[i - 1 - |a|];
      }
    }
  }

  lemma {:induction false} AddedPacketsAppend(a: seq<MemoryCall>, b: seq<MemoryCall>)
    ensures AddedPackets(a + b) == AddedPackets(a) + AddedPackets(b)
    decreases |b|
  {
    if b != [] {
      var b' := b[..|b| - 1];
      assert (a + b)[..|a + b| - 1] == a + b';
      AddedPacketsAppend(a, b');
    } else {
      assert a + b == a;
    }
  }

  lemma StepConsistent(s: AgentState, inbound: Inbound, verdict: bool)
    requires Consistent(s)
    ensures Consistent(Step(s, inbound, verdict))
  {
    if inbound.Received? {
      var p := inbound.packet;
      if p.event == PersonalityUpdate {
      } else if p.event == SessionStart {
        AddedPacketsAppend(s.calls, [ClearCall]);
        GatedAddsAppend(s.calls, [ClearCall]);
      } else if verdict {
        var two := [ShouldAlertCall(p.event), AddEventCall(p.event, p.data)];
        AddedPacketsAppend(s.calls, two);
        GatedAddsAppend(s.calls, two);
        assert two[..1] == [ShouldAlertCall(p.event)];
        assert two[..1][..0] == [];
        assert AddedPackets(two[..1]) == [];
        assert AddedPackets(two) == AddedPackets(two[..1]) + [Packet(p.event, p.data)];
      } else {
        AddedPacketsAppend(s.calls, [ShouldAlertCall(p.event)]);
        GatedAddsAppend(s.calls, [ShouldAlertCall(p.event)]);
      }
    }
  }

  /** The initial state is consistent, and every run of callbacks keeps it so;
      the memory's call record and the scheduled list only ever grow. */
  lemma {:induction false} RunConsistent(s: AgentState, arrivals: seq<Arrival>)
    requires Consistent(s)
    ensures Consistent(Run(s, arrivals))
    ensures var t := Run(s, arrivals);
      |s.calls| <= |t.calls| && t.calls[..|s.calls|] == s.calls &&
      |s.scheduled| <= |t.scheduled| && t.scheduled[..|s.scheduled|] == s.scheduled
    decreases |arrivals|
  {
    if arrivals != [] {
      var s1 := Step(s, arrivals[0].inbound, arrivals[0].verdict);
      StepConsistent(s, arrivals[0].inbound, arrivals[0].verdict);
      assert s1.calls[..|s.calls|] == s.calls;
      assert s1.scheduled[..|s.scheduled|] == s.scheduled;
      RunConsistent(s1, arrivals[1..]);
      var t := Run(s1, arrivals[1..]);
      assert t.calls[..|s.calls|] == t.calls[..|s1.calls|][..|s.calls|];
      assert t.scheduled[..|s.scheduled|] == t.scheduled[..|s1.scheduled|][..|s.scheduled|];
    }
  }

  lemma InitialStateConsistent()
    ensures Consistent(InitialState)
    ensures InitialState.persona == "Strict Devil Instructor"
  {
  }

  predicate IsPersonaUpdate(a: Arrival)
  {
    a.inbound.Received? && a.inbound.packet.event == PersonalityUpdate
  }

  /** With no persona update among the arrivals, the persona is unchanged. */
  lemma {:induction false} RunPersonaWithoutUpdate(s: AgentState, arrivals: seq<Arrival>)
    requires forall i :: 0 <= i < |arrivals| ==> !IsPersonaUpdate(arrivals[i])
    ensures Run(s, arrivals).persona == s.persona
    decreases |arrivals|
  {
    if arrivals != [] {
      var rest := arrivals[1..];
      assert !IsPersonaUpdate(arrivals[0]);
      forall k | 0 <= k < |rest| ensures !IsPersonaUpdate(rest[k]) {
        assert rest[k] == arrivals[k + 1];
      }
      RunPersonaWithoutUpdate(Step(s, arrivals[0].inbound, arrivals[0].verdict), rest);
    }
  }

  /** After a run, the persona is the one composed from the last persona update
      received. */
  lemma {:induction false} RunPersonaLastUpdate(s: AgentState, arrivals: seq<Arrival>, i: nat)
    requires i < |arrivals| && IsPersonaUpdate(arrivals[i])
    requires forall j :: i < j < |arrivals| ==> !IsPersonaUpdate(arrivals[j])
    ensures Run(s, arrivals).persona == ComposePersona(arrivals[i].inbound.packet.data)
    decreases |arrivals|
  {
    var rest := arrivals[1..];
    var s1 := Step(s, arrivals[0].inbound, arrivals[0].verdict);
    if i == 0 {
      forall k | 0 <= k < |rest| ensures !IsPersonaUpdate(rest[k]) {
        assert rest[k] == arrivals[k + 1];
      }
      RunPersonaWithoutUpdate(s1, rest);
    } else {
      forall j | i - 1 < j < |rest| ensures !IsPersonaUpdate(rest[j]) {
        assert rest[j] == arrivals[j + 1];
      }
      RunPersonaLastUpdate(s1, rest, i - 1);
    }
  }

  /** The callbacks whose payload decoded and parsed. */
  function Delivered(arrivals: seq<Arrival>): seq<Arrival>
    decreases |arrivals|
  {
    if arrivals == [] then []
    else (if arrivals[0].inbound.Received? then [arrivals[0]] else []) + Delivered(arrivals[1..])
  }

  /** Dropped payloads are invisible: a run ends in the same state as the run
      of only the packets that decoded and parsed. */
  lemma {:induction false} RunIgnoresDropped(s: AgentState, arrivals: seq<Arrival>)
    ensures Run(s, arrivals) == Run(s, Delivered(arrivals))
    decreases |arrivals|
  {
    if arrivals != [] {
      var a, rest := arrivals[0], arrivals[1..];
      if a.inbound.Received? {
        var s1 := Step(s, a.inbound, a.verdict);
        RunIgnoresDropped(s1, rest);
        var d := Delivered(arrivals);
        assert d == [a] + Delivered(rest);
        assert d[1..] == Delivered(rest);
      } else {
        assert Step(s, a.inbound, a.verdict) == s;
        assert Run(s, arrivals) == Run(s, rest);
        RunIgnoresDropped(s, rest);
        assert [] + Delivered(rest) == Delivered(rest);
        assert Delivered(arrivals) == Delivered(rest);
      }
    }
  }

  /** The number of `clear` calls in a call record. */
  function ClearCount(calls: seq<MemoryCall>): nat
    decreases |calls|
  {
    if calls == [] then 0
    else ClearCount(calls[..|calls| - 1]) + (if calls[|calls| - 1] == ClearCall then 1 else 0)
  }

  /** The number of session starts that were received. */
  function SessionStarts(arrivals: seq<Arrival>): nat
    decreases |arrivals|
  {
    if arrivals == [] then 0
    else
      (if arrivals[0].inbound.Received? && arrivals[0].inbound.packet.event == SessionStart then 1 else 0) +
      SessionStarts(arrivals[1..])
  }

  lemma {:induction false} ClearCountAppend(a: seq<MemoryCall>, b: seq<MemoryCall>)
    ensures ClearCount(a + b) == ClearCount(a) + ClearCount(b)
    decreases |b|
  {
    if b != [] {
      var b' := b[..|b| - 1];
      assert (a + b)[..|a + b| - 1] == a + b';
      ClearCountAppend(a, b');
    } else {
      assert a + b == a;
    }
  }

  /** One callback adds a `clear` call exactly when it is a session start. */
  lemma StepClears(s: AgentState, inbound: Inbound, verdict: bool)
    ensures ClearCount(Step(s, inbound, verdict).calls) ==
      ClearCount(s.calls) + (if inbound.Received? && inbound.packet.event == SessionStart then 1 else 0)
  {
    if inbound.Received? {
      var p := inbound.packet;
      if p.event == PersonalityUpdate {
      } else if p.event == SessionStart {
        ClearCountAppend(s.calls, [ClearCall]);
        ClearCountSingle(ClearCall);
      } else if verdict {
        var two := [ShouldAlertCall(p.event), AddEventCall(p.event, p.data)];
        ClearCountAppend(s.calls, two);
        ClearCountAppend([two[0]], [two[1]]);
        assert two == [two[0]] + [two[1]];
        ClearCountSingle(two[0]);
        ClearCountSingle(two[1]);
      } else {
        ClearCountAppend(s.calls, [ShouldAlertCall(p.event)]);
        ClearCountSingle(ShouldAlertCall(p.event));
      }
    }
  }

  lemma ClearCountSingle(c: MemoryCall)
    ensures ClearCount([c]) == if c == ClearCall then 1 else 0
  {
  }

  /** Memory is cleared exactly once per session start received, and by nothing else. */
  lemma {:induction false} RunClears(s: AgentState, arrivals: seq<Arrival>)
    ensures ClearCount(Run(s, arrivals).calls) == ClearCount(s.calls) + SessionStarts(arrivals)
    decreases |arrivals|
  {
    if arrivals != [] {
      var a := arrivals[0];
      StepClears(s, a.inbound, a.verdict);
      RunClears(Step(s, a.inbound, a.verdict), arrivals[1..]);
    }
  }

  // ---------------------------------------------------------------------------
  // Final-transcript filter
  // ---------------------------------------------------------------------------

  /** The characters Python's `str.isspace` accepts, which `strip()` removes:
      U+0009..U+000D, U+001C..U+0020, U+0085, U+00A0, U+1680, U+2000..U+200A,
      U+2028, U+2029, U+202F, U+205F and U+3000. */
  const Whitespace: set<char> := {
      '\U{9}', '\U{A}', '\U{B}', '\U{C}', '\U{D}', '\U{1C}', '\U{1D}', '\U{1E}',
      '\U{1F}', '\U{20}', '\U{85}', '\U{A0}', '\U{1680}', '\U{2000}', '\U{2001}', '\U{2002}',
      '\U{2003}', '\U{2004}', '\U{2005}', '\U{2006}', '\U{2007}', '\U{2008}', '\U{2009}', '\U{200A}',
      '\U{2028}', '\U{2029}', '\U{202F}', '\U{205F}', '\U{3000}'
    }

  predicate IsSpace(c: char)
  {
    c in Whitespace
  }

  /** The number of characters `strip()` would never remove. */
  function NonSpaceCount(t: string): nat
    decreases |t|
  {
    if t == [] then 0 else (if IsSpace(t[0]) then 0 else 1) + NonSpaceCount(t[1..])
  }

  lemma {:induction false} NonSpaceCountLast(t: string)
    requires t != []
    ensures NonSpaceCount(t) == NonSpaceCount(t[..|t| - 1]) + (if IsSpace(t[|t| - 1]) then 0 else 1)
    ensures NonSpaceCount(t) <= |t|
    decreases |t|
  {
    if |t| > 1 {
      assert t[1..][..|t[1..]| - 1] == t[..|t| - 1][1..];
      NonSpaceCountLast(t[1..]);
    }
  }

  /** `t` without its leading whitespace. */
  function TrimStart(t: string): (r: string)
    ensures |r| <= |t| && r == t[|t| - |r|..]
    ensures forall j :: 0 <= j < |t| - |r| ==> IsSpace(t[j])
    ensures r != [] ==> !IsSpace(r[0])
    ensures NonSpaceCount(r) == NonSpaceCount(t)
    decreases |t|
  {
    if t != [] && IsSpace(t[0]) then
      var r := TrimStart(t[1..]);
      assert forall j :: 1 <= j < |t| - |r| ==> t[j] == t[1..][j - 1];
      r
    else t
  }

  /** `t` without its trailing whitespace. */
  function TrimEnd(t: string): (r: string)
    ensures |r| <= |t| && r == t[..|r|]
    ensures forall j :: |r| <= j < |t| ==> IsSpace(t[j])
    ensures r != [] ==> !IsSpace(r[|r| - 1])
    ensures NonSpaceCount(r) == NonSpaceCount(t)
    decreases |t|
  {
    if t != [] && IsSpace(t[|t| - 1]) then
      NonSpaceCountLast(t);
      var r := TrimEnd(t[..|t| - 1]);
      assert forall j :: |r| <= j < |t| - 1 ==> t[j] == t[..|t| - 1][j];
      r
    else t
  }

  /** Python's `text.strip()`: the slice of `t` between its leading and its
      trailing whitespace. */
  function Strip(t: string): (r: string)
    ensures |r| <= |t|
    ensures r != [] ==> !IsSpace(r[0]) && !IsSpace(r[|r| - 1])
    ensures NonSpaceCount(r) == NonSpaceCount(t)
  {
    var u := TrimStart(t);
    var r := TrimEnd(u);
    assert r != [] ==> r[0] == u[0];
    r
  }

  /** `r` sits at offset `k` of `t`, with only whitespace before and after it. */
  predicate SliceAmidSpaces(t: string, r: string, k: int)
  {
    0 <= k <= |t| - |r| && r == t[k..k + |r|] &&
    (forall j :: 0 <= j < k ==> IsSpace(t[j])) &&
    (forall j :: k + |r| <= j < |t| ==> IsSpace(t[j]))
  }

  /** `strip()` leaves a slice of `t` with only whitespace around it: what
      `TrimStart` removed in front, and whitespace behind. */
  lemma {:induction false} StripIsSlice(t: string)
    ensures SliceAmidSpaces(t, Strip(t), |t| - |TrimStart(t)|)
  {
    var u := TrimStart(t);
    var r := TrimEnd(u);
    SliceWithinSpaces(t, u, r);
    assert Strip(t) == r;
  }

  lemma {:induction false} SliceWithinSpaces(t: string, u: string, r: string)
    requires |u| <= |t| && u == t[|t| - |u|..]
    requires forall j :: 0 <= j < |t| - |u| ==> IsSpace(t[j])
    requires |r| <= |u| && r == u[..|r|]
    requires forall j :: |r| <= j < |u| ==> IsSpace(u[j])
    ensures SliceAmidSpaces(t, r, |t| - |u|)
  {
    var k := |t| - |u|;
    forall j | k + |r| <= j < |t|
      ensures IsSpace(t[j])
    {
      assert t[j] == u[j - k];
    }
  }

  /** A speech-to-text event: a final transcript, or anything else. */
  datatype SpeechEvent = FinalTranscript(text: string) | OtherSpeechEvent

  /** `_read_stt_results` answers a transcript only when it is final, not empty,
      and at least two characters long once stripped. */
  predicate AnswersTranscript(e: SpeechEvent): (b: bool)
    ensures b ==> e.FinalTranscript? && |e.text| >= 2
  {
    e.FinalTranscript? && !(e.text == "" || |Strip(e.text)| < 2)
  }

  /** A transcript is answered exactly when it is final and holds at least two
      non-whitespace characters; in particular the emptiness test is subsumed
      by the length test. */
  lemma TranscriptFilter(e: SpeechEvent)
    ensures AnswersTranscript(e) <==> e.FinalTranscript? && NonSpaceCount(e.text) >= 2
  {
    if e.FinalTranscript? {
      TwoNonSpaceEnds(Strip(e.text));
    }
  }

  /** A text with no whitespace at either end is at least two characters long
      exactly when it holds at least two non-whitespace characters. */
  lemma {:induction false} TwoNonSpaceEnds(r: string)
    requires r != [] ==> !IsSpace(r[0]) && !IsSpace(r[|r| - 1])
    ensures |r| >= 2 <==> NonSpaceCount(r) >= 2
  {
    if r != [] {
      NonSpaceCountLast(r);
      if |r| >= 2 {
        NonSpaceCountLast(r[1..]);
        assert r[1..][|r[1..]| - 1] == r[|r| - 1];
      }
    }
  }
}
