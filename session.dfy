/** The per-call session of `Handle`: after the call identifier, a read loop that keeps the
    speech chunks of the current utterance and a count of consecutive silence frames, and hands a
    closed utterance to `handleInputAudio` once more than five silence frames have followed speech. */
module Session {
  import opened Wrappers
  import opened Pcm
  import opened CallProtocol
  import opened Utterance

  /** Silence frames tolerated inside an utterance; one more closes it. */
  const SilenceThreshold := 5

  /** The voice-activity detector's answer for one audio frame. */
  datatype Vad = Speech | Silence | VadError

  /** One turn of the read loop: end of stream, another read error, or a frame together with
      the verdict the (stateful) detector gives for it if it is asked. */
  datatype Event = Eof | ReadError | Msg(frame: Frame, vad: Vad)

  /** `inputAudioBuffer` and `silenceCount`. */
  datatype State = State(buffer: seq<seq<Int16>>, silenceCount: nat)

  const Initial := State([], 0)

  /** The loop either returns, or goes on in a new state, possibly having handed off an utterance. */
  datatype Step = Stop | Continue(next: State, handoff: Option<seq<seq<Int16>>>)

  /** The events that make `Handle` return: end of stream and hangup. */
  predicate Ends(e: Event) {
    e.Eof? || (e.Msg? && e.frame.kind == KindHangup)
  }

  /** An audio frame the detector is asked about: non-empty and of even length. */
  predicate IsAudio(e: Event) {
    e.Msg? && e.frame.kind == KindSlin && |e.frame.payload| >= 1 && |e.frame.payload| % 2 == 0
  }

  /** One turn of the loop. A read error other than end of stream, an error frame, a frame of any
      other kind, an empty or odd-length audio payload and a detector error change nothing. */
  function Next(s: State, e: Event): Step {
    if Ends(e) then Stop
    else if !IsAudio(e) then Continue(s, None)
    else match e.vad
      case VadError => Continue(s, None)
      case Speech => Continue(State(s.buffer + [Samples(e.frame.payload)], 0), None)
      case Silence =>
        var count := s.silenceCount + 1;
        if count > SilenceThreshold && |s.buffer| > 0 then Continue(State([], count), Some(s.buffer))
        else Continue(State(s.buffer, count), None)
  }

  /** A speech frame appends its samples and resets the silence count. */
  lemma SpeechAppends(s: State, e: Event)
    requires IsAudio(e) && e.vad == Speech
    ensures Next(s, e) == Continue(State(s.buffer + [Samples(e.frame.payload)], 0), None)
  {
  }

  /** A silence frame only counts, unless it is the sixth in a row after speech: then the buffer is
      handed off and emptied, and the count is kept. */
  lemma SilenceCounts(s: State, e: Event)
    requires IsAudio(e) && e.vad == Silence
    ensures Next(s, e).Continue? && Next(s, e).next.silenceCount == s.silenceCount + 1
    ensures Next(s, e).handoff.Some? <==> s.silenceCount + 1 > SilenceThreshold && s.buffer != []
    ensures Next(s, e).handoff.Some? ==> Next(s, e).handoff.value == s.buffer && Next(s, e).next.buffer == []
    ensures Next(s, e).handoff.None? ==> Next(s, e).next.buffer == s.buffer
  {
  }

  /** Since the count is not reset by a hand-off, further silence with an empty buffer does nothing
      but count. */
  lemma SilenceAfterHandoff(count: nat, e: Event)
    requires IsAudio(e) && e.vad == Silence
    ensures Next(State([], count), e) == Continue(State([], count + 1), None)
  {
  }

  /** Frames the detector is not asked about, and detector errors, leave buffer and count alone. */
  lemma OtherEventsChangeNothing(s: State, e: Event)
    requires !Ends(e)
    requires !IsAudio(e) || e.vad == VadError
    ensures Next(s, e) == Continue(s, None)
  {
  }

  /** The utterances handed off, the state the loop is in at the end, and whether it returned
      (hangup or end of stream) rather than running out of events. */
  datatype Outcome = Outcome(utterances: seq<seq<seq<Int16>>>, last: State, ended: bool)

  function HandoffList(h: Option<seq<seq<Int16>>>): seq<seq<seq<Int16>>> {
    if h.Some? then [h.value] else []
  }

  /** The read loop over a finite sequence of events. */
  function Run(s: State, events: seq<Event>): Outcome
    decreases |events|
  {
    if events == [] then Outcome([], s, false)
    else match Next(s, events[0])
      case Stop => Outcome([], s, true)
      case Continue(next, h) =>
        var rest := Run(next, events[1..]);
        Outcome(HandoffList(h) + rest.utterances, rest.last, rest.ended)
  }

  lemma RunStep(s: State, e: Event, rest: seq<Event>)
    ensures Next(s, e).Stop? ==> Run(s, [e] + rest) == Outcome([], s, true)
    ensures Next(s, e).Continue? ==>
      var step := Next(s, e);
      var more := Run(step.next, rest);
      Run(s, [e] + rest) == Outcome(HandoffList(step.handoff) + more.utterances, more.last, more.ended)
  {
    assert ([e] + rest)[0] == e && ([e] + rest)[1..] == rest;
  }

  /** The speech chunk an event contributes, if any. */
  function Accepted(e: Event): seq<seq<Int16>> {
    if IsAudio(e) && e.vad == Speech then [Samples(e.frame.payload)] else []
  }

  /** The speech chunks the loop accepts before it returns. */
  function SpeechChunks(events: seq<Event>): seq<seq<Int16>>
    decreases |events|
  {
    if events == [] || Ends(events[0]) then [] else Accepted(events[0]) + SpeechChunks(events[1..])
  }

  /** One turn keeps every speech chunk: what it hands off followed by the new buffer is the old
      buffer followed by the chunk the event contributes. */
  lemma StepKeepsSpeech(s: State, e: Event)
    requires !Ends(e)
    ensures Flatten(HandoffList(Next(s, e).handoff)) + Next(s, e).next.buffer == s.buffer + Accepted(e)
  {
    var step := Next(s, e);
    if step.handoff.Some? {
      assert [s.buffer][..0] == [];
    }
  }

  /** No speech is lost or reordered: the hand-offs followed by what is still buffered are the
      buffer the loop started with followed by every speech chunk it accepted, in arrival order. */
  lemma {:induction false} RunKeepsEverySpeechChunk(s: State, events: seq<Event>)
    ensures Flatten(Run(s, events).utterances) + Run(s, events).last.buffer == s.buffer + SpeechChunks(events)
    decreases |events|
  {
    if events != [] && !Ends(events[0]) {
      var step := Next(s, events[0]);
      var rest := Run(step.next, events[1..]);
      RunCons(s, events);
      RunKeepsEverySpeechChunk(step.next, events[1..]);
      StepKeepsSpeech(s, events[0]);
      FlattenAppend(HandoffList(step.handoff), rest.utterances);
      ConservationStep(s.buffer, Accepted(events[0]), HandoffList(step.handoff), step.next.buffer,
                       rest.utterances, rest.last.buffer, SpeechChunks(events[1..]));
    }
  }

  /** The sequence algebra of one inductive step of RunKeepsEverySpeechChunk. */
  lemma ConservationStep<T>(start: seq<T>, accepted: seq<T>, handed: seq<seq<T>>, mid: seq<T>,
                            later: seq<seq<T>>, last: seq<T>, chunks: seq<T>)
    requires Flatten(handed) + mid == start + accepted
    requires Flatten(later) + last == mid + chunks
    requires Flatten(handed + later) == Flatten(handed) + Flatten(later)
    ensures Flatten(handed + later) + last == start + (accepted + chunks)
  {
    calc {
      Flatten(handed + later) + last;
      (Flatten(handed) + Flatten(later)) + last;
      Flatten(handed) + (Flatten(later) + last);
      Flatten(handed) + (mid + chunks);
      (Flatten(handed) + mid) + chunks;
      (start + accepted) + chunks;
    }
  }

  /** Run, unfolded at an event that does not end the loop. */
  lemma RunCons(s: State, events: seq<Event>)
    requires events != [] && !Ends(events[0])
    ensures var step := Next(s, events[0]); var rest := Run(step.next, events[1..]);
      Run(s, events) == Outcome(HandoffList(step.handoff) + rest.utterances, rest.last, rest.ended)
    ensures SpeechChunks(events) == Accepted(events[0]) + SpeechChunks(events[1..])
  {
  }

  /** Every utterance handed off holds at least one speech chunk. */
  lemma {:induction false} RunHandsOffNonEmpty(s: State, events: seq<Event>)
    ensures forall u :: u in Run(s, events).utterances ==> u != []
    decreases |events|
  {
    if events != [] && Next(s, events[0]).Continue? {
      RunHandsOffNonEmpty(Next(s, events[0]).next, events[1..]);
    }
  }

  /** A hangup or end of stream ends the loop on the spot: the buffer accumulated so far is never
      handed off, and nothing after it is read. */
  lemma {:induction false} EndDropsPartialUtterance(s: State, before: seq<Event>, e: Event, after: seq<Event>)
    requires Ends(e)
    requires forall i :: 0 <= i < |before| ==> !Ends(before[i])
    ensures Run(s, before + [e] + after) == Outcome(Run(s, before).utterances, Run(s, before).last, true)
    decreases |before|
  {
    if before == [] {
      assert before + [e] + after == [e] + after;
      RunStep(s, e, after);
    } else {
      assert before + [e] + after == [before[0]] + (before[1..] + [e] + after);
      assert before == [before[0]] + before[1..];
      RunStep(s, before[0], before[1..] + [e] + after);
      RunStep(s, before[0], before[1..]);
      if Next(s, before[0]).Continue? {
        EndDropsPartialUtterance(Next(s, before[0]).next, before[1..], e, after);
      }
    }
  }

  function SpeechFrame(payload: seq<Byte>): Event {
    Msg(Frame(KindSlin, payload), Speech)
  }

  function SilenceFrame(payload: seq<Byte>): Event {
    Msg(Frame(KindSlin, payload), Silence)
  }

  /** `n` silence frames with the same payload. */
  function Silences(q: seq<Byte>, n: nat): seq<Event>
    decreases n
  {
    if n == 0 then [] else [SilenceFrame(q)] + Silences(q, n - 1)
  }

  /** Silence with an empty buffer only counts. */
  lemma {:induction false} SilencesWithoutSpeech(count: nat, q: seq<Byte>, n: nat)
    requires |q| >= 1 && |q| % 2 == 0
    ensures Run(State([], count), Silences(q, n)) == Outcome([], State([], count + n), false)
    decreases n
  {
    if n > 0 {
      var sil := SilenceFrame(q);
      assert Silences(q, n) == [sil] + Silences(q, n - 1);
      SilenceAfterHandoff(count, sil);
      RunStep(State([], count), sil, Silences(q, n - 1));
      SilencesWithoutSpeech(count + 1, q, n - 1);
    }
  }

  /** A run of silence after speech closes the utterance exactly when the count passes five, and
      closes it only once. */
  lemma {:induction false} SilencesAfterSpeech(chunks: seq<seq<Int16>>, count: nat, q: seq<Byte>, n: nat)
    requires chunks != [] && count <= SilenceThreshold
    requires |q| >= 1 && |q| % 2 == 0
    ensures count + n <= SilenceThreshold ==>
      Run(State(chunks, count), Silences(q, n)) == Outcome([], State(chunks, count + n), false)
    ensures count + n > SilenceThreshold ==>
      Run(State(chunks, count), Silences(q, n)) == Outcome([chunks], State([], count + n), false)
    decreases n
  {
    if n > 0 {
      var sil := SilenceFrame(q);
      var tail := Silences(q, n - 1);
      assert Silences(q, n) == [sil] + tail;
      SilenceCounts(State(chunks, count), sil);
      RunStep(State(chunks, count), sil, tail);
      if count + 1 > SilenceThreshold {
        SilencesWithoutSpeech(count + 1, q, n - 1);
      } else {
        SilencesAfterSpeech(chunks, count + 1, q, n - 1);
      }
    }
  }

  /** Three speech frames followed by five silence frames close nothing yet; the sixth silence
      frame hands off exactly the three speech chunks and empties the buffer. */
  lemma SixthSilenceClosesUtterance(p1: seq<Byte>, p2: seq<Byte>, p3: seq<Byte>, q: seq<Byte>)
    requires |p1| >= 1 && |p1| % 2 == 0 && |p2| >= 1 && |p2| % 2 == 0 && |p3| >= 1 && |p3| % 2 == 0
    requires |q| >= 1 && |q| % 2 == 0
    ensures var speech := [SpeechFrame(p1), SpeechFrame(p2), SpeechFrame(p3)];
      var chunks := [Samples(p1), Samples(p2), Samples(p3)];
      && Run(Initial, speech + Silences(q, 5)) == Outcome([], State(chunks, 5), false)
      && Run(Initial, speech + Silences(q, 6)) == Outcome([chunks], State([], 6), false)
  {
    var chunks := [Samples(p1), Samples(p2), Samples(p3)];
    SpeechThenSilence(p1, p2, p3, Silences(q, 5));
    SpeechThenSilence(p1, p2, p3, Silences(q, 6));
    SilencesAfterSpeech(chunks, 0, q, 5);
    SilencesAfterSpeech(chunks, 0, q, 6);
  }

  /** Three speech frames, then anything: the loop goes on with the three chunks buffered. */
  lemma SpeechThenSilence(p1: seq<Byte>, p2: seq<Byte>, p3: seq<Byte>, rest: seq<Event>)
    requires |p1| >= 1 && |p1| % 2 == 0 && |p2| >= 1 && |p2| % 2 == 0 && |p3| >= 1 && |p3| % 2 == 0
    ensures Run(Initial, [SpeechFrame(p1), SpeechFrame(p2), SpeechFrame(p3)] + rest)
         == Run(State([Samples(p1), Samples(p2), Samples(p3)], 0), rest)
  {
    var c1, c2, c3 := Samples(p1), Samples(p2), Samples(p3);
    var t3 := [SpeechFrame(p3)] + rest;
    var t2 := [SpeechFrame(p2)] + t3;
    assert [SpeechFrame(p1), SpeechFrame(p2), SpeechFrame(p3)] + rest == [SpeechFrame(p1)] + t2;
    RunSpeech(Initial, p1, t2);
    assert Initial.buffer + [c1] == [c1];
    RunSpeech(State([c1], 0), p2, t3);
    assert [c1] + [c2] == [c1, c2];
    RunSpeech(State([c1, c2], 0), p3, rest);
    assert [c1, c2] + [c3] == [c1, c2, c3];
  }

  /** Run, unfolded at a speech frame. */
  lemma RunSpeech(s: State, p: seq<Byte>, rest: seq<Event>)
    requires |p| >= 1 && |p| % 2 == 0
    ensures Run(s, [SpeechFrame(p)] + rest) == Run(State(s.buffer + [Samples(p)], 0), rest)
  {
    SpeechAppends(s, SpeechFrame(p));
    RunStep(s, SpeechFrame(p), rest);
    assert HandoffList(None) == [];
  }

  /** The effects of all utterances of a call, one utterance after the other. */
  function SessionEffects(utterances: seq<seq<seq<Int16>>>, chatId: string, stt: SttSettings,
                          llm: LlmSettings, svc: Services): seq<Effect>
    decreases |utterances|
  {
    if utterances == [] then []
    else SessionEffects(utterances[..|utterances| - 1], chatId, stt, llm, svc)
         + UtteranceEffects(utterances[|utterances| - 1], chatId, stt, llm, svc)
  }

  /** Appending the outcome of one turn to the utterances appends that utterance's effects. */
  lemma SessionEffectsAppend(utterances: seq<seq<seq<Int16>>>, h: Option<seq<seq<Int16>>>,
                             chatId: string, stt: SttSettings, llm: LlmSettings, svc: Services)
    ensures SessionEffects(utterances + HandoffList(h), chatId, stt, llm, svc)
         == SessionEffects(utterances, chatId, stt, llm, svc)
            + (if h.Some? then UtteranceEffects(h.value, chatId, stt, llm, svc) else [])
  {
    var u := utterances + HandoffList(h);
    if h.Some? {
      assert u[..|u| - 1] == utterances && u[|u| - 1] == h.value;
    } else {
      assert u == utterances;
    }
  }

  /** One turn of the read loop, seen from the whole run: the turn at position `i` either ends it,
      or moves its hand-off into the utterances already collected. */
  lemma LoopAdvance(all: Outcome, done: seq<seq<seq<Int16>>>, s: State, events: seq<Event>, i: nat)
    requires i < |events|
    requires all == Outcome(done + Run(s, events[i..]).utterances, Run(s, events[i..]).last, Run(s, events[i..]).ended)
    ensures Next(s, events[i]).Stop? ==> all == Outcome(done, s, true)
    ensures Next(s, events[i]).Continue? ==>
      var step := Next(s, events[i]);
      var more := Run(step.next, events[i + 1..]);
      all == Outcome((done + HandoffList(step.handoff)) + more.utterances, more.last, more.ended)
  {
    assert events[i..] == [events[i]] + events[i + 1..];
    RunStep(s, events[i], events[i + 1..]);
    if Next(s, events[i]).Stop? {
      assert done + [] == done;
    } else {
      var step := Next(s, events[i]);
      var more := Run(step.next, events[i + 1..]);
      assert done + (HandoffList(step.handoff) + more.utterances) == (done + HandoffList(step.handoff)) + more.utterances;
    }
  }

  /** The body of the read loop of `Handle` for one event: decode an audio payload, consult the
      detector, and process a closed utterance before reading on. */
  method HandleEvent(buffer: seq<seq<Int16>>, silenceCount: nat, e: Event,
                     chatId: string, stt: SttSettings, llm: LlmSettings, svc: Services)
    returns (stop: bool, buffer': seq<seq<Int16>>, silenceCount': nat,
             handoff: Option<seq<seq<Int16>>>, effects: seq<Effect>)
    ensures stop <==> Next(State(buffer, silenceCount), e).Stop?
    ensures !stop ==> Next(State(buffer, silenceCount), e) == Continue(State(buffer', silenceCount'), handoff)
    ensures effects == if !stop && handoff.Some? then UtteranceEffects(handoff.value, chatId, stt, llm, svc) else []
  {
    stop, buffer', silenceCount', handoff, effects := false, buffer, silenceCount, None, [];
    match e {
      case Eof =>
        stop := true;
      case ReadError =>
      case Msg(m, vad) =>
        match m.kind {
          case KindHangup =>
            stop := true;
          case KindSlin =>
            if |m.payload| < 1 {
              return;
            }
            var samples := PcmToSamples(m.payload);
            if samples.Err? {
              return;
            }
            match vad {
              case VadError =>
              case Speech =>
                buffer' := buffer + [samples.value];
                silenceCount' := 0;
              case Silence =>
                silenceCount' := silenceCount + 1;
                if silenceCount' > SilenceThreshold && |buffer| > 0 {
                  effects := HandleInputAudio(buffer, chatId, stt, llm, svc);
                  handoff := Some(buffer);
                  buffer' := [];
                }
            }
          case _ =>
        }
    }
  }

  /** The read loop of `Handle`, over a finite sequence of events. */
  method ReadLoop(events: seq<Event>, chatId: string, stt: SttSettings, llm: LlmSettings, svc: Services)
    returns (utterances: seq<seq<seq<Int16>>>, effects: seq<Effect>, last: State, ended: bool)
    ensures Run(Initial, events) == Outcome(utterances, last, ended)
    ensures effects == SessionEffects(utterances, chatId, stt, llm, svc)
  {
    var inputAudioBuffer: seq<seq<Int16>> := [];
    var silenceCount: nat := 0;
    utterances, effects := [], [];
    var i := 0;
    while i < |events|
      invariant 0 <= i <= |events|
      invariant var rest := Run(State(inputAudioBuffer, silenceCount), events[i..]);
        Run(Initial, events) == Outcome(utterances + rest.utterances, rest.last, rest.ended)
      invariant effects == SessionEffects(utterances, chatId, stt, llm, svc)
    {
      var s := State(inputAudioBuffer, silenceCount);
      LoopAdvance(Run(Initial, events), utterances, s, events, i);
      var stop, handoff, more;
      stop, inputAudioBuffer, silenceCount, handoff, more :=
        HandleEvent(inputAudioBuffer, silenceCount, events[i], chatId, stt, llm, svc);
      if stop {
        return utterances, effects, s, true;
      }
      SessionEffectsAppend(utterances, handoff, chatId, stt, llm, svc);
      effects := effects + more;
      utterances := utterances + HandoffList(handoff);
      i := i + 1;
    }
    last, ended := State(inputAudioBuffer, silenceCount), false;
  }

  /** What the call-specific setup of `Handle` (chat record, settings, model conversation) yields
      when it succeeds: the settings snapshot for the call. */
  datatype CallSetup = CallSetup(stt: SttSettings, llm: LlmSettings)

  /** `Handle`: obtain the call identifier from the first frame, run the setup, then the read loop
      with the identifier's text as the chat identifier. */
  method HandleCall(first: ReadResult, setup: Result<CallSetup>, events: seq<Event>, svc: Services)
    returns (utterances: seq<seq<seq<Int16>>>, effects: seq<Effect>)
    ensures GetCallId(first).NoCallId? || setup.Err? ==> utterances == [] && effects == []
    ensures GetCallId(first).CallId? && setup.Ok? ==>
      && utterances == Run(Initial, events).utterances
      && effects == SessionEffects(utterances, UuidString(GetCallId(first).id), setup.value.stt, setup.value.llm, svc)
  {
    var id := GetCallId(first);
    if id.NoCallId? {
      return [], [];
    }
    if setup.Err? {
      return [], [];
    }
    var chatId := UuidString(id.id);
    var last, ended;
    utterances, effects, last, ended := ReadLoop(events, chatId, setup.value.stt, setup.value.llm, svc);
  }
}
