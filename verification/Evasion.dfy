/**
  The evasion meta-pattern and the instance sharing of one worker: the exfil slot and the evasion slot
  of a mixer drive the same `Exfil.Generator`.
 */
module Evasion {
  import opened Basics
  import opened Exfil
  import Mixer

  datatype Weights = Weights(dga: nat, exfil: nat, exotic: nat) {
    function Total(): nat {
      dga + exfil + exotic
    }
  }

  function EvasionWeights(profile: string): Weights {
    if profile == "off" then Weights(0, 0, 0)
    else if profile == "light" then Weights(3, 1, 1)
    else if profile == "heavy" then Weights(1, 3, 2)
    else Weights(2, 2, 1)
  }

  datatype Choice = UseDga | UseExfil | UseExotic

  /** The generator a draw selects; with no weight at all there is no draw and DGA is used. */
  function Choose(w: Weights, pick: nat): Choice {
    if w.Total() == 0 || pick < w.dga then UseDga
    else if pick < w.dga + w.exfil then UseExfil
    else UseExotic
  }

  function AsSlots(w: Weights): seq<Mixer.int32>
    requires w.dga < 0x8000_0000 && w.exfil < 0x8000_0000 && w.exotic < 0x8000_0000
  {
    [w.dga, w.exfil, w.exotic]
  }

  function SlotOf(choice: Choice): nat {
    match choice case UseDga => 0 case UseExfil => 1 case UseExotic => 2
  }

  /** The three-way switch is the mixer's weighted walk, so each generator gets its share of the draws. */
  lemma ChoiceIsWeightedWalk(profile: string, pick: nat)
    requires pick < EvasionWeights(profile).Total()
    ensures Mixer.Walk(AsSlots(EvasionWeights(profile)), pick) == Some(SlotOf(Choose(EvasionWeights(profile), pick)))
    ensures |Mixer.Share(AsSlots(EvasionWeights(profile)), 1)| == EvasionWeights(profile).exfil
  {
    var w := EvasionWeights(profile);
    var ws := AsSlots(w);
    assert ws[..3] == ws && ws[..3][..2] == ws[..2] && ws[..2][..1] == ws[..1] && ws[..1][..0] == [];
    assert Mixer.PosSum(ws[..1]) == w.dga;
    assert Mixer.PosSum(ws[..2]) == w.dga + w.exfil;
    assert Mixer.PosSum(ws[..3]) == w.Total();
    var k := SlotOf(Choose(w, pick));
    Mixer.WalkStopsHere(ws, k, pick);
    Mixer.SlotGetsItsWeight(ws, 1);
  }

  /** The weights of the profiles; any other name is medium. */
  lemma ProfileWeights(profile: string)
    ensures EvasionWeights("light") == Weights(3, 1, 1)
    ensures EvasionWeights("heavy") == Weights(1, 3, 2)
    ensures EvasionWeights("off") == Weights(0, 0, 0)
    ensures profile != "off" && profile != "light" && profile != "heavy" ==> EvasionWeights(profile) == Weights(2, 2, 1)
  {
    assert |"light"| == 5 && |"heavy"| == 5 && |"off"| == 3;
    assert "light"[0] == 'l' && "heavy"[0] == 'h';
  }

  /** The first draws go to DGA, the next to exfil and the last to exotic; without weights it is DGA. */
  lemma DrawsInOrder(w: Weights, pick: nat)
    requires pick < w.dga + w.exfil + w.exotic || w == Weights(0, 0, 0)
    ensures Choose(w, pick) == UseDga <==> pick < w.dga || w == Weights(0, 0, 0)
    ensures Choose(w, pick) == UseExfil <==> w.dga <= pick < w.dga + w.exfil && w != Weights(0, 0, 0)
    ensures Choose(w, pick) == UseExotic <==> w.dga + w.exfil <= pick && w != Weights(0, 0, 0)
  {}

  /** One call of a worker's generator, by the slot it came through. */
  datatype Event =
    | ExfilSlot(tool: string, domain: string, payloadBytes: int, rng: nat -> byte)
    | EvasionSlot(profile: string, pick: nat, tool: string, domain: string, payloadBytes: int, rng: nat -> byte)
    | OtherSlot

  predicate PickInRange(e: Event) {
    e.EvasionSlot? && EvasionWeights(e.profile).Total() > 0 ==> e.pick < EvasionWeights(e.profile).Total()
  }

  /** The call of the shared generator an event amounts to, if any. */
  function CallOf(e: Event): Option<Call> {
    match e
    case ExfilSlot(tool, domain, n, rng) => Some(Call(tool, domain, Draws(rng, PayloadSize(n))))
    case EvasionSlot(profile, pick, tool, domain, n, rng) =>
      if Choose(EvasionWeights(profile), pick) == UseExfil
      then Some(Call(tool, domain, Draws(rng, PayloadSize(n)))) else None
    case OtherSlot => None
  }

  /** The exfil slot always calls the shared generator, the evasion slot on its middle draws, both with the knobs of the event. */
  lemma CallsUseTheirKnobs(e: Event)
    ensures e.ExfilSlot? ==> CallOf(e).Some?
    ensures e.EvasionSlot? && PickInRange(e) ==>
              var w := EvasionWeights(e.profile);
              (CallOf(e).Some? <==> w.dga <= e.pick < w.dga + w.exfil && w != Weights(0, 0, 0))
    ensures e.OtherSlot? ==> CallOf(e).None?
    ensures CallOf(e).Some? ==>
              var call := CallOf(e).value;
              && call.tool == e.tool && call.domain == e.domain
              && |call.drawn| == PayloadSize(e.payloadBytes)
              && forall i | 0 <= i < |call.drawn| :: call.drawn[i] == e.rng(i)
  {}

  function CallsOf(events: seq<Event>): seq<Call> {
    if events == [] then []
    else (if CallOf(events[0]).Some? then [CallOf(events[0]).value] else []) + CallsOf(events[1..])
  }

  class Meta {
    const exfil: Generator

    constructor (exfil: Generator)
      ensures this.exfil == exfil
    {
      this.exfil := exfil;
    }

    /** The DGA and exotic queries are not part of this model: `None` stands for one, `used` says whose it is. */
    method Next(profile: string, pick: nat, tool: string, domain: string, payloadBytes: int, rng: nat -> byte,
                gz: seq<byte> -> seq<byte>) returns (used: Choice, q: Option<Query>)
      requires exfil.Valid() && PickInRange(EvasionSlot(profile, pick, tool, domain, payloadBytes, rng))
      modifies exfil, exfil.b32Buf
      ensures exfil.Valid() && (exfil.b32Buf == old(exfil.b32Buf) || fresh(exfil.b32Buf))
      ensures used == Choose(EvasionWeights(profile), pick)
      ensures var call := CallOf(EvasionSlot(profile, pick, tool, domain, payloadBytes, rng));
              if call.Some?
              then q == Some(Emit(old(exfil.View()), call.value, gz)) && exfil.View() == Step(old(exfil.View()), call.value)
              else q == None && exfil.View() == old(exfil.View())
    {
      var w := EvasionWeights(profile);
      var total := w.dga + w.exfil + w.exotic;
      q := None;
      if total <= 0 {
        return UseDga, None;
      }
      if pick < w.dga {
        used := UseDga;
      } else if pick < w.dga + w.exfil {
        used := UseExfil;
        var query := exfil.Next(tool, domain, payloadBytes, rng, gz);
        q := Some(query);
      } else {
        used := UseExotic;
      }
    }
  }

  /** The generators of one mixer that carry session state. */
  class Worker {
    const exfil: Generator
    const evasion: Meta

    ghost predicate Valid()
      reads this, exfil
    {
      evasion.exfil == exfil && exfil.Valid()
    }

    constructor ()
      ensures Valid() && exfil.View() == NO_SESSION && fresh(exfil) && fresh(exfil.b32Buf)
    {
      var ex := new Generator();
      exfil := ex;
      evasion := new Meta(ex);
    }

    method Handle(e: Event, gz: seq<byte> -> seq<byte>) returns (q: Option<Query>)
      requires Valid() && PickInRange(e)
      modifies exfil, exfil.b32Buf
      ensures Valid() && (exfil.b32Buf == old(exfil.b32Buf) || fresh(exfil.b32Buf))
      ensures if CallOf(e).Some?
              then q == Some(Emit(old(exfil.View()), CallOf(e).value, gz)) && exfil.View() == Step(old(exfil.View()), CallOf(e).value)
              else q == None && exfil.View() == old(exfil.View())
    {
      match e {
        case ExfilSlot(tool, domain, n, rng) =>
          var query := exfil.Next(tool, domain, n, rng, gz);
          q := Some(query);
        case EvasionSlot(profile, pick, tool, domain, n, rng) =>
          var used;
          used, q := evasion.Next(profile, pick, tool, domain, n, rng, gz);
        case OtherSlot =>
          q := None;
      }
    }
  }

  /** What a worker's calls emit, event by event, as `Handle` specifies them. */
  function WorkerRun(m: Session, events: seq<Event>, gz: seq<byte> -> seq<byte>): seq<Query>
    decreases |events|
  {
    if events == [] then []
    else
      match CallOf(events[0])
      case Some(call) => [Emit(m, call, gz)] + WorkerRun(Step(m, call), events[1..], gz)
      case None => WorkerRun(m, events[1..], gz)
  }

  lemma {:induction false} WorkerRunIsSharedRun(m: Session, events: seq<Event>, gz: seq<byte> -> seq<byte>)
    ensures WorkerRun(m, events, gz) == Emissions(m, CallsOf(events), gz)
    decreases |events|
  {
    if events != [] {
      match CallOf(events[0])
      case Some(call) =>
        assert CallsOf(events)[1..] == CallsOf(events[1..]);
        WorkerRunIsSharedRun(Step(m, call), events[1..], gz);
      case None =>
        assert CallsOf(events) == CallsOf(events[1..]);
        WorkerRunIsSharedRun(m, events[1..], gz);
    }
  }

  lemma {:induction false} CallsAreDrawable(events: seq<Event>)
    ensures forall k | 0 <= k < |CallsOf(events)| :: Drawable(CallsOf(events)[k])
  {
    if events != [] { CallsAreDrawable(events[1..]); }
  }

  /** The session round trip holds however calls are spread over the exfil and the evasion slot. */
  lemma {:induction false} SessionsSurviveBothSlots(events: seq<Event>, gz: seq<byte> -> seq<byte>)
    requires forall k | 0 <= k < |events| ::
               CallOf(events[k]).Some? ==> CallOf(events[k]).value.tool != "iodine"
    ensures Good(Run(NO_SESSION, CallsOf(events)))
    ensures ReceiveAll([], WorkerRun(NO_SESSION, events, gz))
            == Progress(FinishedBy([], NO_SESSION, CallsOf(events)), Run(NO_SESSION, CallsOf(events)))
  {
    WorkerRunIsSharedRun(NO_SESSION, events, gz);
    CallsAreDrawable(events);
    CallsKeepTools(events);
    ReceiverRebuildsSessions(CallsOf(events), gz);
  }

  lemma {:induction false} CallsKeepTools(events: seq<Event>)
    requires forall k | 0 <= k < |events| ::
               CallOf(events[k]).Some? ==> CallOf(events[k]).value.tool != "iodine"
    ensures forall k | 0 <= k < |CallsOf(events)| :: CallsOf(events)[k].tool != "iodine"
  {
    if events != [] { CallsKeepTools(events[1..]); }
  }
}
