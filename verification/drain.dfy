// Draining the child's pipes into bounded files (src/factory/integrations/codex/
// worker.py _drain_output).
module Drain {
  import opened Models

  newtype Byte = x: int | 0 <= x < 256

  const MAX_OUTPUT_BYTES: nat := 1_048_576

  datatype Stream = Stdout | Stderr

  // One ready event: stdin took some bytes or its pipe is broken, or a stream has a
  // chunk, empty at its end.
  datatype Ready =
    | Taken(written: nat)
    | Broken
    | Chunk(stream: Stream, bytes: seq<Byte>)

  // One turn of the loop: whether the child is alive at its head, whether the
  // deadline has passed and the child is still alive then, whether the cancel marker
  // is seen before or after waiting, and what the selector reports.
  datatype Turn = Turn(
    alive: bool, cancelBefore: bool, expired: bool, aliveAtDeadline: bool, cancelAfter: bool,
    events: seq<Ready>)

  // -- what the streams really carried ------------------------------------------

  function Events(turns: seq<Turn>): seq<Ready> {
    if turns == [] then [] else Events(turns[..|turns| - 1]) + turns[|turns| - 1].events
  }

  predicate Ended(es: seq<Ready>, s: Stream) { Chunk(s, []) in es }

  // Every byte of the stream up to its end.
  function Read(es: seq<Ready>, s: Stream): seq<Byte> {
    if es == [] then []
    else
      var before, e := es[..|es| - 1], es[|es| - 1];
      if e.Chunk? && e.stream == s && !Ended(before, s) then Read(before, s) + e.bytes
      else Read(before, s)
  }

  function Bounded(bytes: seq<Byte>): seq<Byte> {
    if |bytes| <= MAX_OUTPUT_BYTES then bytes else bytes[..MAX_OUTPUT_BYTES]
  }

  predicate Exceeds(es: seq<Ready>) {
    |Read(es, Stdout)| > MAX_OUTPUT_BYTES || |Read(es, Stderr)| > MAX_OUTPUT_BYTES
  }

  // What is still to be sent.
  function Unsent(instruction: seq<Byte>, es: seq<Ready>): seq<Byte> {
    if es == [] then instruction
    else
      var left := Unsent(instruction, es[..|es| - 1]);
      match es[|es| - 1]
      case Taken(written) => if written <= |left| then left[written..] else []
      case Broken => []
      case Chunk(_, _) => left
  }

  // Something is left to do at the head of a turn: bytes to send, a stream still open,
  // or a child still alive.
  ghost predicate Busy(instruction: seq<Byte>, turns: seq<Turn>, i: nat)
    requires i < |turns|
  {
    || turns[i].alive
    || Unsent(instruction, Events(turns[..i])) != []
    || Chunk(Stdout, []) !in Events(turns[..i]) || Chunk(Stderr, []) !in Events(turns[..i])
  }

  lemma UnsentMore(instruction: seq<Byte>, es: seq<Ready>, e: Ready)
    ensures
      var left := Unsent(instruction, es);
      Unsent(instruction, es + [e]) ==
        if e.Broken? || (e.Taken? && e.written > |left|) then []
        else if e.Taken? then left[e.written..] else left
  {
    assert (es + [e])[..|es|] == es;
  }

  lemma ReadMore(es: seq<Ready>, e: Ready, s: Stream)
    ensures Read(es + [e], s) ==
            if e.Chunk? && e.stream == s && !Ended(es, s) then Read(es, s) + e.bytes else Read(es, s)
    ensures Ended(es + [e], s) <==> Ended(es, s) || e == Chunk(s, [])
  {
    assert (es + [e])[..|es|] == es;
  }

  // -- the loop's state -------------------------------------------------------------

  class Pipes {
    var pending: seq<Byte>
    var sent: seq<Byte>
    var broken: bool
    var files: map<Stream, seq<Byte>>
    var open: set<Stream>
    var exceeded: bool

    constructor (instruction: seq<Byte>)
      ensures pending == instruction && sent == [] && !broken
      ensures files == map[Stdout := [], Stderr := []] && open == {Stdout, Stderr} && !exceeded
    {
      pending, sent, broken := instruction, [], false;
      files, open, exceeded := map[Stdout := [], Stderr := []], {Stdout, Stderr}, false;
    }

    // What has been done with the events so far, on the one side and on the other.
    ghost predicate Fed(instruction: seq<Byte>, es: seq<Ready>)
      reads this`pending, this`sent, this`broken
    {
      && pending == Unsent(instruction, es)
      && (!broken ==> sent + pending == instruction)
      && (broken ==> pending == [] && sent <= instruction && Broken in es)
    }

    ghost predicate Captured(es: seq<Ready>)
      reads this`files, this`open, this`exceeded
    {
      && files.Keys == {Stdout, Stderr}
      && files[Stdout] == Bounded(Read(es, Stdout))
      && files[Stderr] == Bounded(Read(es, Stderr))
      && open <= {Stdout, Stderr}
      && (Stdout in open <==> !Ended(es, Stdout))
      && (Stderr in open <==> !Ended(es, Stderr))
      && (exceeded <==> Exceeds(es))
    }

    ghost predicate Holds(instruction: seq<Byte>, es: seq<Ready>)
      reads this
    {
      Fed(instruction, es) && Captured(es)
    }

    method Handle(e: Ready, ghost instruction: seq<Byte>, ghost es: seq<Ready>)
      requires Holds(instruction, es)
      modifies this
      ensures Holds(instruction, es + [e])
    {
      ReadMore(es, e, Stdout);
      ReadMore(es, e, Stderr);
      UnsentMore(instruction, es, e);
      hide Read, Ended, Unsent;
      match e {
        case Taken(written) => Write(written, instruction, es);
        case Broken => Break(instruction, es);
        case Chunk(stream, bytes) => Take(stream, bytes, es);
      }
    }

    // The child has read some of the instruction.
    method Write(written: nat, ghost instruction: seq<Byte>, ghost es: seq<Ready>)
      requires Fed(instruction, es)
      modifies this`pending, this`sent
      ensures Fed(instruction, es + [Taken(written)])
    {
      UnsentMore(instruction, es, Taken(written));
      hide Unsent;
      var n := if written <= |pending| then written else |pending|;
      assert sent + pending == (sent + pending[..n]) + pending[n..];
      sent, pending := sent + pending[..n], pending[n..];
    }

    // The child reads no more of it.
    method Break(ghost instruction: seq<Byte>, ghost es: seq<Ready>)
      requires Fed(instruction, es)
      modifies this`pending, this`broken
      ensures Fed(instruction, es + [Broken])
    {
      UnsentMore(instruction, es, Broken);
      hide Unsent;
      if pending != [] {
        broken := true;
        pending := [];
      }
    }

    // A chunk of a stream, empty at its end.
    method Take(stream: Stream, bytes: seq<Byte>, ghost es: seq<Ready>)
      requires Captured(es)
      modifies this`files, this`open, this`exceeded
      ensures Captured(es + [Chunk(stream, bytes)])
    {
      ReadMore(es, Chunk(stream, bytes), Stdout);
      ReadMore(es, Chunk(stream, bytes), Stderr);
      hide Read, Ended, Bounded;
      if stream in open {
        if bytes == [] {
          EmptyChunk(Read(es, stream));
          open := open - {stream};
        } else {
          Capture(stream, bytes, Read(es, stream));
        }
      }
    }

    // Write what still fits, note whether something did not.
    method Capture(stream: Stream, bytes: seq<Byte>, ghost read: seq<Byte>)
      requires files.Keys == {Stdout, Stderr} && files[stream] == Bounded(read) && bytes != []
      requires exceeded || |read| <= MAX_OUTPUT_BYTES
      modifies this`files, this`exceeded
      ensures files == old(files)[stream := Bounded(read + bytes)]
      ensures exceeded <==> old(exceeded) || |read + bytes| > MAX_OUTPUT_BYTES
    {
      CaptureMore(read, bytes);
      var target := files[stream];
      var allowed := MAX_OUTPUT_BYTES - |target|;
      if allowed > 0 {
        files := files[stream := target + if |bytes| <= allowed then bytes else bytes[..allowed]];
      } else {
        assert target + bytes[..0] == target && files == files[stream := target];
      }
      if |bytes| > allowed { exceeded := true; }
    }
  }

  lemma EmptyChunk(read: seq<Byte>)
    ensures read + [] == read
  {
  }

  // Appending the part of a chunk that still fits keeps the file a bounded prefix,
  // and a chunk spills over exactly when the stream first exceeds the bound.
  lemma CaptureMore(read: seq<Byte>, bytes: seq<Byte>)
    ensures
      var allowed := MAX_OUTPUT_BYTES - |Bounded(read)|;
      && allowed >= 0
      && Bounded(read + bytes) == Bounded(read) + (if |bytes| <= allowed then bytes else bytes[..allowed])
      && (bytes != [] ==>
            (|read + bytes| > MAX_OUTPUT_BYTES <==> |bytes| > allowed))
  {
    if |read| < MAX_OUTPUT_BYTES < |read + bytes| {
      var allowed := MAX_OUTPUT_BYTES - |read|;
      assert (read + bytes)[..MAX_OUTPUT_BYTES] == read + bytes[..allowed];
    }
  }

  method Opened(instruction: seq<Byte>) returns (pipes: Pipes)
    ensures fresh(pipes) && pipes.Holds(instruction, [])
  {
    pipes := new Pipes(instruction);
  }

  // The turns' events, one by one.
  method HandleAll(pipes: Pipes, events: seq<Ready>, ghost instruction: seq<Byte>, ghost es: seq<Ready>)
    requires pipes.Holds(instruction, es)
    modifies pipes
    ensures pipes.Holds(instruction, es + events)
  {
    hide Read, Ended, Bounded, Unsent;
    assert es + [] == es;
    for i := 0 to |events|
      invariant pipes.Holds(instruction, es + events[..i])
    {
      assert es + events[..i + 1] == (es + events[..i]) + [events[i]];
      pipes.Handle(events[i], instruction, es + events[..i]);
    }
    assert events[..|events|] == events;
  }

  datatype Ending = Ending(status: RunStatus, timedOut: bool, turns: nat)

  // The whole loop over any sequence of turns. `turns` counts those whose events were
  // handled: all up to the first that finds nothing left to do, a cancellation or the
  // deadline. Each file is exactly the first MAX_OUTPUT_BYTES bytes of its stream, the
  // overflow flag is set exactly when some stream carried more, and until the pipe
  // breaks the bytes sent and pending make up the instruction.
  method DrainOutput(instruction: seq<Byte>, turns: seq<Turn>) returns (pipes: Pipes, r: Ending)
    ensures fresh(pipes) && r.turns <= |turns|
    ensures pipes.files.Keys == {Stdout, Stderr}
    ensures pipes.files[Stdout] == Bounded(Read(Events(turns[..r.turns]), Stdout))
    ensures pipes.files[Stderr] == Bounded(Read(Events(turns[..r.turns]), Stderr))
    ensures pipes.exceeded <==> Exceeds(Events(turns[..r.turns]))
    ensures Broken !in Events(turns[..r.turns]) ==> pipes.sent + pipes.pending == instruction
    ensures pipes.broken ==> pipes.pending == [] && pipes.sent <= instruction
    ensures pipes.pending == Unsent(instruction, Events(turns[..r.turns]))
    ensures forall i :: 0 <= i < r.turns ==>
              && Busy(instruction, turns, i)
              && !turns[i].cancelBefore && !turns[i].expired && !turns[i].cancelAfter
    ensures r.turns < |turns| ==>
              || !Busy(instruction, turns, r.turns)
              || turns[r.turns].cancelBefore || turns[r.turns].expired || turns[r.turns].cancelAfter
    ensures r.status in {RunFailed, RunCancelled}
    ensures r.status == RunCancelled <==>
              && r.turns < |turns| && Busy(instruction, turns, r.turns)
              && (turns[r.turns].cancelBefore || (turns[r.turns].cancelAfter && !turns[r.turns].expired))
    ensures r.timedOut <==>
              && r.turns < |turns| && Busy(instruction, turns, r.turns)
              && !turns[r.turns].cancelBefore && turns[r.turns].expired && turns[r.turns].aliveAtDeadline
  {
    hide Read, Bounded, Unsent;
    pipes := Opened(instruction);
    r := Ending(RunFailed, false, 0);
    ghost var es: seq<Ready> := [];
    while r.turns < |turns| && (pipes.pending != [] || pipes.open != {} || turns[r.turns].alive)
      invariant fresh(pipes) && r.turns <= |turns|
      invariant es == Events(turns[..r.turns]) && pipes.Holds(instruction, es)
      invariant r.status == RunFailed && !r.timedOut
      invariant forall i :: 0 <= i < r.turns ==>
                  && Busy(instruction, turns, i)
                  && !turns[i].cancelBefore && !turns[i].expired && !turns[i].cancelAfter
      decreases |turns| - r.turns
    {
      var t := turns[r.turns];
      if t.cancelBefore {
        r := r.(status := RunCancelled);
        break;
      }
      if t.expired {
        r := r.(timedOut := t.aliveAtDeadline);
        break;
      }
      if t.cancelAfter {
        r := r.(status := RunCancelled);
        break;
      }
      HandleAll(pipes, t.events, instruction, es);
      es := es + t.events;
      assert turns[..r.turns + 1][..r.turns] == turns[..r.turns];
      r := r.(turns := r.turns + 1);
    }
  }
}
