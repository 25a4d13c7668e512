/** The doodle runtime: a configuration builder, the fallible build step and
    the frame loop of a sketch (src/lib.rs). The SDL calls underneath are
    abstracted: renderer initialisation is an outcome given to `Build`, the
    event pump is a finite sequence of event batches, and the observable
    behaviour of the loop is a trace of actions. */
module Doodle {

  /** Rust's `u32`, the type of width, height and the frame rate. */
  newtype U32 = x: int | 0 <= x < 0x1_0000_0000

  datatype Option<+T> = None | Some(value: T)

  /** The crate's error type; only the variant tags and a diagnostic are kept. */
  datatype Error =
    | SdlError(message: string)
    | IntegerOrSdlError(message: string)
    | TtfInitError(message: string)
    | FontError(message: string)
    | WindowBuildError(message: string)
    | Error(message: string)

  /** The crate's `Result<T>`, with the error fixed to `Error`. */
  datatype Result<+T> = Ok(value: T) | Err(error: Error)

  /** A callback `Fn(&mut T, &mut Renderer)`, seen only through its effect on the state. */
  type Handler<!T> = T -> T

  /** The window a renderer was opened on: its title and its size. */
  datatype Renderer = Renderer(title: string, width: U32, height: U32)

  /** `Renderer::new`: SDL, image, window, canvas, event-pump and TTF
      initialisation succeed or fail as `failure` says; on success the window
      carries the requested title and size. */
  function NewRenderer(name: string, width: U32, height: U32, failure: Option<Error>): (r: Result<Renderer>)
    ensures r.Ok? <==> failure.None?
    ensures r.Err? ==> r.error == failure.value
    ensures r.Ok? ==> r.value.title == name && r.value.width == width && r.value.height == height
  {
    match failure
    case Some(e) => Err(e)
    case None => Ok(Renderer(name, width, height))
  }

  /** `DoodleBuilder<T>`: value semantics, every setter returns the updated builder. */
  datatype DoodleBuilder<!T> = DoodleBuilder(
    name: string,
    width: U32,
    height: U32,
    state: T,
    fps: U32,
    setup: Handler<T>,
    draw: Handler<T>)
  {
    /** `DoodleBuilder::new`; `defaultState` stands for `T::default()`. */
    static function New(defaultState: T): (b: DoodleBuilder<T>)
      ensures b.name == "" && b.fps == 30 && b.width == 800 && b.height == 600
      ensures b.state == defaultState
    {
      DoodleBuilder("", 800, 600, defaultState, 30, s => s, s => s)
    }

    function Name(name: string): (r: DoodleBuilder<T>)
      ensures r.name == name
      ensures r.width == width && r.height == height && r.state == state
      ensures r.fps == fps && r.setup == setup && r.draw == draw
    {
      this.(name := name)
    }

    function Fps(fps: U32): (r: DoodleBuilder<T>)
      ensures r.fps == fps
      ensures r.name == name && r.width == width && r.height == height
      ensures r.state == state && r.setup == setup && r.draw == draw
    {
      this.(fps := fps)
    }

    function Width(width: U32): (r: DoodleBuilder<T>)
      ensures r.width == width
      ensures r.name == name && r.height == height && r.state == state
      ensures r.fps == fps && r.setup == setup && r.draw == draw
    {
      this.(width := width)
    }

    function Height(height: U32): (r: DoodleBuilder<T>)
      ensures r.height == height
      ensures r.name == name && r.width == width && r.state == state
      ensures r.fps == fps && r.setup == setup && r.draw == draw
    {
      this.(height := height)
    }

    function State(state: T): (r: DoodleBuilder<T>)
      ensures r.state == state
      ensures r.name == name && r.width == width && r.height == height
      ensures r.fps == fps && r.setup == setup && r.draw == draw
    {
      this.(state := state)
    }

    function Setup(setup: Handler<T>): (r: DoodleBuilder<T>)
      ensures r.setup == setup
      ensures r.name == name && r.width == width && r.height == height
      ensures r.state == state && r.fps == fps && r.draw == draw
    {
      this.(setup := setup)
    }

    function Draw(draw: Handler<T>): (r: DoodleBuilder<T>)
      ensures r.draw == draw
      ensures r.name == name && r.width == width && r.height == height
      ensures r.state == state && r.fps == fps && r.setup == setup
    {
      this.(draw := draw)
    }
  }

  /** Both default handlers leave the state as it is. */
  lemma NewHandlersAreNoops<T>(defaultState: T, s: T)
    ensures DoodleBuilder.New(defaultState).setup(s) == s
    ensures DoodleBuilder.New(defaultState).draw(s) == s
  {
  }

  /** A second call of the same setter replaces the first one's value. */
  lemma LastWriteWins<T>(b: DoodleBuilder<T>, n1: string, n2: string, f1: U32, f2: U32,
                         w1: U32, w2: U32, h1: U32, h2: U32, s1: T, s2: T,
                         u1: Handler<T>, u2: Handler<T>, d1: Handler<T>, d2: Handler<T>)
    ensures b.Name(n1).Name(n2) == b.Name(n2)
    ensures b.Fps(f1).Fps(f2) == b.Fps(f2)
    ensures b.Width(w1).Width(w2) == b.Width(w2)
    ensures b.Height(h1).Height(h2) == b.Height(h2)
    ensures b.State(s1).State(s2) == b.State(s2)
    ensures b.Setup(u1).Setup(u2) == b.Setup(u2)
    ensures b.Draw(d1).Draw(d2) == b.Draw(d2)
  {
  }

  /** An event drained from the event pump; only the quit category matters. */
  datatype Event = Quit | Other(kind: nat)

  /** What the run loop does to the outside world, in order. */
  datatype Action = Setup | Present | Draw | Tick

  /** The position of the first `Quit` in a batch, or its length if there is none. */
  function FirstQuit(batch: seq<Event>): (k: nat)
    ensures k <= |batch|
    ensures forall i :: 0 <= i < k ==> batch[i] != Quit
    ensures k < |batch| ==> batch[k] == Quit
    ensures k == |batch| <==> Quit !in batch
  {
    if |batch| == 0 then 0
    else if batch[0] == Quit then 0
    else 1 + FirstQuit(batch[1..])
  }

  /** The index of the first batch holding a `Quit`, or the number of batches if none does. */
  function QuitBatch(batches: seq<seq<Event>>): (k: nat)
    ensures k <= |batches|
    ensures forall i :: 0 <= i < k ==> Quit !in batches[i]
    ensures k < |batches| ==> Quit in batches[k]
  {
    if |batches| == 0 then 0
    else if Quit in batches[0] then 0
    else 1 + QuitBatch(batches[1..])
  }

  /** `f` applied `n` times to `s`. */
  function Iterate<T>(f: T -> T, s: T, n: nat): T
  {
    if n == 0 then s else f(Iterate(f, s, n - 1))
  }

  lemma {:induction false} IterateAdd<T>(f: T -> T, s: T, m: nat, n: nat)
    ensures Iterate(f, s, m + n) == Iterate(f, Iterate(f, s, m), n)
  {
    if n > 0 {
      IterateAdd(f, s, m, n - 1);
    }
  }

  /** The events of the given batches, one after the other. */
  function Flatten(batches: seq<seq<Event>>): seq<Event>
  {
    if |batches| == 0 then [] else Flatten(batches[..|batches| - 1]) + batches[|batches| - 1]
  }

  /** The events the run loop looks at: every batch before the quitting one,
      and the quitting batch up to and including its first `Quit`. */
  function Drained(batches: seq<seq<Event>>): seq<Event>
  {
    var k := QuitBatch(batches);
    Flatten(batches[..k]) + if k < |batches| then batches[k][..FirstQuit(batches[k]) + 1] else []
  }

  /** The actions of `n` loop iterations that did not quit. */
  function Frames(n: nat): seq<Action>
  {
    if n == 0 then [] else Frames(n - 1) + [Draw, Present, Tick]
  }

  /** The trace of a run whose loop completed `k` iterations before it quit or the input ended. */
  function RunTrace(k: nat): seq<Action>
  {
    [Setup, Present] + Frames(k)
  }

  lemma {:induction false} FramesLength(n: nat)
    ensures |Frames(n)| == 3 * n
  {
    if n > 0 {
      FramesLength(n - 1);
    }
  }

  lemma {:induction false} FramesAt(n: nat, i: nat)
    requires i < 3 * n
    ensures |Frames(n)| == 3 * n
    ensures Frames(n)[i] == if i % 3 == 0 then Draw else if i % 3 == 1 then Present else Tick
  {
    FramesLength(n);
    if i < 3 * (n - 1) {
      FramesAt(n - 1, i);
    } else {
      FramesLength(n - 1);
    }
  }

  lemma {:induction false} FramesCount(n: nat)
    ensures multiset(Frames(n))[Draw] == n
    ensures multiset(Frames(n))[Present] == n
    ensures multiset(Frames(n))[Tick] == n
    ensures multiset(Frames(n))[Setup] == 0
  {
    if n > 0 {
      FramesCount(n - 1);
    }
  }

  /** Setup is called once, first, and is followed by exactly one present. */
  lemma SetupOnceFirst(k: nat)
    ensures |RunTrace(k)| == 2 + 3 * k
    ensures RunTrace(k)[0] == Setup && RunTrace(k)[1] == Present
    ensures multiset(RunTrace(k))[Setup] == 1
    ensures forall i :: 1 <= i < |RunTrace(k)| ==> RunTrace(k)[i] != Setup
    ensures forall i :: 0 <= i < |RunTrace(k)| && RunTrace(k)[i] == Draw ==> i >= 2
  {
    FramesCount(k);
    FramesLength(k);
    forall i | 1 <= i < |RunTrace(k)|
      ensures RunTrace(k)[i] != Setup && (RunTrace(k)[i] == Draw ==> i >= 2)
    {
      if i >= 2 {
        FramesAt(k, i - 2);
      }
    }
  }

  /** What comes before and after the action at position `i` of a run's trace. */
  lemma RunTraceAround(k: nat, i: nat)
    requires i < |RunTrace(k)|
    ensures RunTrace(k)[i] == Draw ==>
      i + 2 < |RunTrace(k)| && RunTrace(k)[i + 1] == Present && RunTrace(k)[i + 2] == Tick
    ensures i >= 2 && RunTrace(k)[i] == Present ==> RunTrace(k)[i - 1] == Draw
  {
    FramesLength(k);
    if i >= 2 {
      FramesAt(k, i - 2);
      if (i - 2) % 3 == 0 {
        FramesAt(k, i - 1);
        FramesAt(k, i);
      } else if (i - 2) % 3 == 1 {
        FramesAt(k, i - 3);
      }
    }
  }

  /** Every draw is immediately followed by one present and then one tick, and
      every present after the first comes right after a draw. */
  lemma DrawPresentTick(k: nat)
    ensures forall i :: 0 <= i < |RunTrace(k)| && RunTrace(k)[i] == Draw ==>
      i + 2 < |RunTrace(k)| && RunTrace(k)[i + 1] == Present && RunTrace(k)[i + 2] == Tick
    ensures forall i :: 2 <= i < |RunTrace(k)| && RunTrace(k)[i] == Present ==> RunTrace(k)[i - 1] == Draw
  {
    forall i | 0 <= i < |RunTrace(k)| {
      RunTraceAround(k, i);
    }
  }

  /** `k` iterations draw `k` times, present `k + 1` times and tick `k` times. */
  lemma {:induction false} RunTraceCounts(k: nat)
    ensures multiset(RunTrace(k))[Draw] == k
    ensures multiset(RunTrace(k))[Present] == k + 1
    ensures multiset(RunTrace(k))[Tick] == k
  {
    FramesCount(k);
  }

  /** The only `Quit` the loop ever looks at is the last event it drains. */
  lemma {:induction false} DrainedStopsAtQuit(batches: seq<seq<Event>>)
    ensures QuitBatch(batches) < |batches| <==> Quit in Drained(batches)
    ensures QuitBatch(batches) < |batches| ==> Drained(batches)[|Drained(batches)| - 1] == Quit
    ensures forall i :: 0 <= i < |Drained(batches)| - 1 ==> Drained(batches)[i] != Quit
  {
    var k := QuitBatch(batches);
    FlattenNoQuit(batches[..k]);
    var e := Drained(batches);
    if k < |batches| {
      var q := FirstQuit(batches[k]);
      var tail := batches[k][..q + 1];
      assert e == Flatten(batches[..k]) + tail;
      assert e[|e| - 1] == Quit;
    } else {
      assert e == Flatten(batches[..k]);
    }
  }

  lemma {:induction false} FlattenNoQuit(batches: seq<seq<Event>>)
    requires forall i :: 0 <= i < |batches| ==> Quit !in batches[i]
    ensures Quit !in Flatten(batches)
  {
    if |batches| > 0 {
      FlattenNoQuit(batches[..|batches| - 1]);
    }
  }

  /** A sketch ready to run: `Doodle<T>`. */
  class Doodle<T> {
    var state: T
    const fps: U32
    const setup: Handler<T>
    const draw: Handler<T>
    const renderer: Renderer

    constructor (state: T, fps: U32, setup: Handler<T>, draw: Handler<T>, renderer: Renderer)
      ensures this.state == state && this.fps == fps && this.setup == setup
      ensures this.draw == draw && this.renderer == renderer
    {
      this.state := state;
      this.fps := fps;
      this.setup := setup;
      this.draw := draw;
      this.renderer := renderer;
    }

    /** `Doodle::run` over a finite prefix of the event stream. `r` is
        `Some(Ok(()))` when a quit event ended the loop and `None` when the
        input ran out while the loop was still going; `examined` lists the
        events the loop looked at. */
    method Run(batches: seq<seq<Event>>) returns (r: Option<Result<()>>, trace: seq<Action>, ghost examined: seq<Event>)
      modifies this
      ensures trace == RunTrace(QuitBatch(batches))
      ensures state == Iterate(draw, setup(old(state)), QuitBatch(batches))
      ensures r == if QuitBatch(batches) < |batches| then Some(Ok(())) else None
      ensures examined == Drained(batches)
    {
      ghost var start := setup(state);
      state := setup(state);
      trace := [Setup];
      trace := trace + [Present];
      r := None;
      examined := [];
      var i := 0;
      label main:
      while i < |batches|
        invariant 0 <= i <= |batches|
        invariant forall j :: 0 <= j < i ==> Quit !in batches[j]
        invariant trace == RunTrace(i)
        invariant state == Iterate(draw, start, i)
        invariant examined == Flatten(batches[..i])
        invariant r == None
      {
        var batch := batches[i];
        var j := 0;
        while j < |batch|
          invariant 0 <= j <= |batch|
          invariant forall m :: 0 <= m < j ==> batch[m] != Quit
          invariant examined == Flatten(batches[..i]) + batch[..j]
        {
          examined := examined + [batch[j]];
          if batch[j] == Quit {
            r := Some(Ok(()));
            assert FirstQuit(batch) == j;
            assert QuitBatch(batches) == i;
            assert batch[..j] + [batch[j]] == batch[..j + 1];
            break main;
          }
          j := j + 1;
        }
        assert batch[..j] == batch;
        assert batches[..i + 1][..i] == batches[..i];
        state := draw(state);
        trace := trace + [Draw];
        trace := trace + [Present];
        trace := trace + [Tick];
        i := i + 1;
      }
      if r == None {
        assert batches[..i] == batches;
      }
    }
  }

  /** `DoodleBuilder::build`: the fields move into a `Doodle`, unless the renderer cannot be created. */
  method Build<T>(b: DoodleBuilder<T>, failure: Option<Error>) returns (r: Result<Doodle<T>>)
    ensures r.Ok? <==> failure.None?
    ensures r.Err? ==> r.error == failure.value
    ensures r.Ok? ==> fresh(r.value)
    ensures r.Ok? ==> r.value.state == b.state && r.value.fps == b.fps
    ensures r.Ok? ==> r.value.setup == b.setup && r.value.draw == b.draw
    ensures r.Ok? ==> r.value.renderer == Renderer(b.name, b.width, b.height)
  {
    var renderer := NewRenderer(b.name, b.width, b.height, failure);
    if renderer.Err? {
      return Err(renderer.error);
    }
    var d := new Doodle(b.state, b.fps, b.setup, b.draw, renderer.value);
    return Ok(d);
  }
}
