/** The bundled example sketch (examples/simple.rs): a gray level that climbs
    from black to white one step per frame, then back down, forever. */
module Simple {
  import opened Doodle

  /** Rust's `i16`, the type of both fields of the sketch's state. */
  newtype I16 = x: int | -0x8000 <= x < 0x8000

  /** Rust's `u8`, one channel of `Color::RGB`. */
  newtype U8 = x: int | 0 <= x < 0x100

  /** The sketch's `State { change, color }`. */
  datatype State = State(change: I16, color: I16)

  /** `State::default()`, derived: both fields zero. */
  const DefaultState := State(0, 0)

  /** The state the sketch is configured with. */
  const Init := State(1, 0)

  /** `i16` addition with two's-complement wrap-around. */
  function AddI16(a: I16, b: I16): (r: I16)
    ensures -0x8000 <= a as int + b as int < 0x8000 ==> r as int == a as int + b as int
    ensures a as int + b as int >= 0x8000 ==> r as int == a as int + b as int - 0x1_0000
    ensures a as int + b as int < -0x8000 ==> r as int == a as int + b as int + 0x1_0000
  {
    ((a as int + b as int + 0x8000) % 0x1_0000 - 0x8000) as I16
  }

  /** The `as u8` cast: keep the low eight bits of the two's-complement value. */
  function AsU8(x: I16): (r: U8)
    ensures 0 <= x <= 255 ==> r as int == x as int
    ensures (r as int - x as int) % 0x100 == 0
  {
    (x as int % 0x100) as U8
  }

  /** The update of the draw callback, as a function of the state. */
  function Step(s: State): (r: State)
    ensures 0 <= r.color <= 255
    ensures r.change == s.change || (r.color == 255 && r.change == -1) || (r.color == 0 && r.change == 1)
  {
    var color := AddI16(s.color, s.change);
    if color > 255 then State(-1, 255)
    else if color < 0 then State(1, 0)
    else State(s.change, color)
  }

  /** The gray level a frame paints: the color before the update. */
  function Gray(s: State): (c: U8)
    ensures 0 <= s.color <= 255 ==> c as int == s.color as int
  {
    AsU8(s.color)
  }

  /** The bounds the sketch keeps: a color channel value and a unit step. */
  predicate Inv(s: State)
  {
    0 <= s.color <= 255 && (s.change == 1 || s.change == -1)
  }

  /** The body of the draw callback with its sequential assignments. */
  method DrawFrame(s: State) returns (c: U8, t: State)
    ensures c == Gray(s) && t == Step(s)
    ensures Inv(s) ==> c as int == s.color as int && Inv(t)
  {
    var change, color := s.change, s.color;
    c := AsU8(color);
    color := AddI16(color, change);
    if color > 255 {
      color := 255;
      change := -1;
    } else if color < 0 {
      color := 0;
      change := 1;
    }
    t := State(change, color);
  }

  /** Under the invariant the `i16` sum never wraps, and the update is a clamp
      at 0 and 255 that turns the step around. */
  lemma StepCases(s: State)
    requires Inv(s)
    ensures -0x8000 <= s.color as int + s.change as int < 0x8000
    ensures s.color as int + s.change as int > 255 ==> Step(s) == State(-1, 255)
    ensures s.color as int + s.change as int < 0 ==> Step(s) == State(1, 0)
    ensures 0 <= s.color as int + s.change as int <= 255 ==>
      Step(s) == State(s.change, (s.color as int + s.change as int) as I16)
  {
  }

  lemma StepKeepsInv(s: State)
    requires Inv(s)
    ensures Inv(Step(s))
  {
  }

  /** The cast in `let c = s.color as u8` loses nothing under the invariant. */
  lemma GrayIsColor(s: State)
    requires Inv(s)
    ensures Gray(s) as int == s.color as int
  {
  }

  lemma {:induction false} InvAlways(n: nat)
    ensures Inv(Iterate(Step, Init, n))
  {
    if n > 0 {
      InvAlways(n - 1);
      StepKeepsInv(Iterate(Step, Init, n - 1));
    }
  }

  /** For the first 255 frames the color climbs by one per frame. */
  lemma {:induction false} Rising(n: nat)
    requires n <= 255
    ensures Iterate(Step, Init, n) == State(1, n as I16)
  {
    if n > 0 {
      Rising(n - 1);
    }
  }

  /** Frame 256 clamps at white and turns the step around. */
  lemma TurnAtWhite()
    ensures Iterate(Step, Init, 256) == State(-1, 255)
  {
    Rising(255);
  }

  /** The next 255 frames the color falls by one per frame. */
  lemma {:induction false} Falling(j: nat)
    requires j <= 255
    ensures Iterate(Step, Init, 256 + j) == State(-1, (255 - j) as I16)
  {
    if j == 0 {
      TurnAtWhite();
    } else {
      Falling(j - 1);
    }
  }

  /** Frame 512 clamps at black and turns the step around again: the state is back to the start. */
  lemma Period()
    ensures Iterate(Step, Init, 512) == Init
  {
    Falling(255);
  }

  lemma {:induction false} Periodic(n: nat)
    ensures Iterate(Step, Init, n + 512) == Iterate(Step, Init, n)
  {
    IterateAdd(Step, Init, 512, n);
    Period();
  }

  /** The builder chain of the example's `main`. */
  function Config(): (b: DoodleBuilder<State>)
    ensures b.name == "Test" && b.width == 600 && b.height == 400 && b.fps == 60
    ensures b.state == Init && b.draw == Step
    ensures forall s :: b.setup(s) == s
  {
    DoodleBuilder.New(DefaultState)
      .Name("Test")
      .Width(600)
      .Height(400)
      .Fps(60)
      .State(Init)
      .Setup(s => s)
      .Draw(Step)
  }

  /** The example's `main`: build, unwrap, run. `built` is false when the
      renderer cannot be created, where `unwrap` panics; otherwise the run
      draws once per batch before the first quit, and the state goes through
      the bounce that many times. */
  method RunExample(failure: Option<Error>, batches: seq<seq<Event>>)
    returns (built: bool, final: State, trace: seq<Action>)
    ensures built <==> failure.None?
    ensures built ==> trace == RunTrace(QuitBatch(batches))
    ensures built ==> final == Iterate(Step, Init, QuitBatch(batches)) && Inv(final)
  {
    var r := Build(Config(), failure);
    if r.Err? {
      return false, DefaultState, [];
    }
    var d := r.value;
    var _, tr, _ := d.Run(batches);
    InvAlways(QuitBatch(batches));
    return true, d.state, tr;
  }
}
