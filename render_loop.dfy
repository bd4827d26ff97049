/** The render-target set of src/main.js and the `tick` loop that drives it
    (lines 255-267, the initial texture bindings of the materials, and lines
    384-432). Each `renderer.render` call is recorded as a pass: the stage
    whose material was drawn, the textures bound to that material, and the
    target it wrote. The shaders themselves are not modelled. */
module RenderLoop {

  datatype Option<T> = None | Some(value: T)

  /** A `THREE.WebGLRenderTarget`. Its identity is the object's identity. */
  class RenderTarget {
    const width: int
    const height: int

    constructor (width: int, height: int)
      ensures this.width == width && this.height == height
    {
      this.width := width;
      this.height := height;
    }

    /** `clone()`: a new target of the same size. */
    method Clone() returns (c: RenderTarget)
      ensures fresh(c) && c.width == width && c.height == height
    {
      c := new RenderTarget(width, height);
    }
  }

  /** Where a pass draws: a render target, or the canvas (`setRenderTarget(null)`). */
  datatype Dest = Offscreen(target: RenderTarget) | Screen

  /** The five scenes drawn per tick: three velocity solver passes, the ink
      pass and the final tone-map pass. */
  datatype Stage = BufferA | BufferB | BufferC | BufferD | Final

  /** One `renderer.render` call. For `BufferD`, `inputs` is
      [textureA, colorTexture]; every other stage binds one texture. */
  datatype Pass = Pass(stage: Stage, inputs: seq<RenderTarget>, output: Dest)

  /** A pass whose destination is one of its own inputs (a feedback loop). */
  predicate ReadsOwnTarget(p: Pass) {
    p.output.Offscreen? && p.output.target in p.inputs
  }

  /** `p` wrote the texture that `q` binds at input slot `k`. */
  predicate Feeds(p: Pass, q: Pass, k: nat) {
    k < |q.inputs| && p.output == Offscreen(q.inputs[k])
  }

  /** The eight `let`-bound handles: three ping-pong pairs of the velocity
      passes and the colour pair of the ink pass. */
  datatype Handles = Handles(
    rt1: RenderTarget, rt2: RenderTarget,
    rtb1: RenderTarget, rtb2: RenderTarget,
    rtc1: RenderTarget, rtc2: RenderTarget,
    colorRT1: RenderTarget, colorRT2: RenderTarget)

  function PairA(h: Handles): set<RenderTarget> { {h.rt1, h.rt2} }
  function PairB(h: Handles): set<RenderTarget> { {h.rtb1, h.rtb2} }
  function PairC(h: Handles): set<RenderTarget> { {h.rtc1, h.rtc2} }
  function PairColor(h: Handles): set<RenderTarget> { {h.colorRT1, h.colorRT2} }

  /** The eight handles name eight different targets. */
  predicate Distinct(h: Handles) {
    && h.rt1 != h.rt2 && h.rtb1 != h.rtb2 && h.rtc1 != h.rtc2 && h.colorRT1 != h.colorRT2
    && PairA(h) !! PairB(h) && PairA(h) !! PairC(h) && PairA(h) !! PairColor(h)
    && PairB(h) !! PairC(h) && PairB(h) !! PairColor(h)
    && PairC(h) !! PairColor(h)
  }

  /** Every handle is a `width` x `height` target. */
  predicate SameShape(h: Handles, width: int, height: int) {
    forall t | t in PairA(h) + PairB(h) + PairC(h) + PairColor(h) :: t.width == width && t.height == height
  }

  /** The four destructuring swaps of `tick` (lines 392, 401, 410, 429). */
  function SwapA(h: Handles): Handles {
    Handles(h.rt2, h.rt1, h.rtb1, h.rtb2, h.rtc1, h.rtc2, h.colorRT1, h.colorRT2)
  }
  function SwapB(h: Handles): Handles {
    Handles(h.rt1, h.rt2, h.rtb2, h.rtb1, h.rtc1, h.rtc2, h.colorRT1, h.colorRT2)
  }
  function SwapC(h: Handles): Handles {
    Handles(h.rt1, h.rt2, h.rtb1, h.rtb2, h.rtc2, h.rtc1, h.colorRT1, h.colorRT2)
  }
  function SwapColor(h: Handles): Handles {
    Handles(h.rt1, h.rt2, h.rtb1, h.rtb2, h.rtc1, h.rtc2, h.colorRT2, h.colorRT1)
  }

  /** The handles at the end of a tick: the four swaps in order. */
  function Exchanged(h: Handles): Handles {
    SwapColor(SwapC(SwapB(SwapA(h))))
  }

  /** The handles at the start of tick number `n` (counting from 0). */
  function Run(h: Handles, n: nat): Handles {
    if n == 0 then h else Exchanged(Run(h, n - 1))
  }

  /** The passes one tick renders, in order, in terms of the handles at the
      start of that tick. */
  function Frame(h: Handles): seq<Pass> {
    [ Pass(BufferA, [h.rt1], Offscreen(h.rt2)),
      Pass(BufferB, [h.rt1], Offscreen(h.rtb1)),
      Pass(BufferC, [h.rtb1], Offscreen(h.rtc1)),
      Pass(BufferD, [h.rtc1, h.colorRT1], Offscreen(h.colorRT2)),
      Pass(Final, [h.colorRT2], Screen) ]
  }

  /** A tick's passes, built as `DrawPasses` builds them: one append per
      `renderer.render` call, starting from no pass. */
  lemma FrameByAppends(h: Handles)
    ensures Frame(h) == [] + [Frame(h)[0]] + [Frame(h)[1]] + [Frame(h)[2]] + [Frame(h)[3]] + [Frame(h)[4]]
  {
  }

  /** Each swap exchanges the two handles of its own pair and leaves the other
      six as they were. */
  lemma SwapsAreLocal(h: Handles)
    ensures SwapA(h).rt1 == h.rt2 && SwapA(h).rt2 == h.rt1
    ensures SwapA(h).(rt1 := h.rt1, rt2 := h.rt2) == h
    ensures SwapB(h).rtb1 == h.rtb2 && SwapB(h).rtb2 == h.rtb1
    ensures SwapB(h).(rtb1 := h.rtb1, rtb2 := h.rtb2) == h
    ensures SwapC(h).rtc1 == h.rtc2 && SwapC(h).rtc2 == h.rtc1
    ensures SwapC(h).(rtc1 := h.rtc1, rtc2 := h.rtc2) == h
    ensures SwapColor(h).colorRT1 == h.colorRT2 && SwapColor(h).colorRT2 == h.colorRT1
    ensures SwapColor(h).(colorRT1 := h.colorRT1, colorRT2 := h.colorRT2) == h
  {
  }

  /** After a full tick every pair holds the same two targets with roles
      exchanged, so the handles stay distinct and of one shape; two ticks
      restore every handle. */
  lemma ExchangedKeepsPairs(h: Handles, width: int, height: int)
    ensures PairA(Exchanged(h)) == PairA(h) && PairB(Exchanged(h)) == PairB(h)
    ensures PairC(Exchanged(h)) == PairC(h) && PairColor(Exchanged(h)) == PairColor(h)
    ensures Distinct(h) ==> Distinct(Exchanged(h))
    ensures SameShape(h, width, height) ==> SameShape(Exchanged(h), width, height)
    ensures Exchanged(Exchanged(h)) == h
  {
  }

  /** Over any number of ticks, the pairs keep their targets, the handles stay
      distinct and of one shape. */
  lemma {:induction false} RunKeepsPairs(h: Handles, n: nat, width: int, height: int)
    ensures PairA(Run(h, n)) == PairA(h) && PairB(Run(h, n)) == PairB(h)
    ensures PairC(Run(h, n)) == PairC(h) && PairColor(Run(h, n)) == PairColor(h)
    ensures Distinct(h) ==> Distinct(Run(h, n))
    ensures SameShape(h, width, height) ==> SameShape(Run(h, n), width, height)
  {
    if n > 0 {
      RunKeepsPairs(h, n - 1, width, height);
      ExchangedKeepsPairs(Run(h, n - 1), width, height);
    }
  }

  /** The handles alternate: after an even number of ticks they are the
      initial ones, after an odd number every pair is exchanged. */
  lemma {:induction false} RunParity(h: Handles, n: nat)
    ensures Run(h, n) == if n % 2 == 0 then h else Exchanged(h)
  {
    if n > 0 {
      RunParity(h, n - 1);
      ExchangedKeepsPairs(h, 0, 0);
    }
  }

  /** No pass of a tick draws into a texture it samples. */
  lemma NoPassReadsItsOwnTarget(h: Handles)
    requires Distinct(h)
    ensures forall i | 0 <= i < |Frame(h)| :: !ReadsOwnTarget(Frame(h)[i])
  {
  }

  /** The same on every tick of a run that starts from distinct targets. */
  lemma NoPassReadsItsOwnTargetEver(h: Handles, n: nat)
    requires Distinct(h)
    ensures forall i | 0 <= i < |Frame(Run(h, n))| :: !ReadsOwnTarget(Frame(Run(h, n))[i])
  {
    RunKeepsPairs(h, n, 0, 0);
    NoPassReadsItsOwnTarget(Run(h, n));
  }

  /** Some pass before pass `i` of `f` wrote input slot `k` of pass `i`. */
  predicate WrittenEarlier(f: seq<Pass>, i: nat, k: nat)
    requires i < |f|
  {
    exists j | 0 <= j < i :: Feeds(f[j], f[i], k)
  }

  /** Some pass of `prev` wrote input slot `k` of pass `i` of `cur`. */
  predicate WrittenBy(prev: seq<Pass>, cur: seq<Pass>, i: nat, k: nat)
    requires i < |cur|
  {
    exists j | 0 <= j < |prev| :: Feeds(prev[j], cur[i], k)
  }

  /** Within a tick, exactly the first input of C, of the ink pass and of the
      screen pass were drawn earlier in the same tick; A's input, B's input
      and the ink pass's `colorTexture` were not. */
  lemma SourcesWithinTick(h: Handles)
    requires Distinct(h)
    ensures forall i: nat, k: nat | i < |Frame(h)| && k < |Frame(h)[i].inputs| ::
      WrittenEarlier(Frame(h), i, k) <==> (k == 0 && i >= 2)
  {
    var f := Frame(h);
    forall i: nat, k: nat | i < |f| && k < |f[i].inputs|
      ensures WrittenEarlier(f, i, k) <==> (k == 0 && i >= 2)
    {
      if k == 0 && i >= 2 {
        assert Feeds(f[i - 1], f[i], k);
      } else {
        assert forall j | 0 <= j < i :: !Feeds(f[j], f[i], k);
      }
    }
  }

  /** From the second tick on, every input a tick samples and does not draw
      itself was drawn by a pass of the previous tick. */
  lemma SourcesAcrossTicks(h: Handles, n: nat)
    requires n >= 1
    ensures var prev, cur := Frame(Run(h, n - 1)), Frame(Run(h, n));
      forall i: nat, k: nat | i < |cur| && k < |cur[i].inputs| && !(k == 0 && i >= 2) ::
        WrittenBy(prev, cur, i, k)
  {
    var prev, cur := Frame(Run(h, n - 1)), Frame(Run(h, n));
    forall i: nat, k: nat | i < |cur| && k < |cur[i].inputs| && !(k == 0 && i >= 2)
      ensures WrittenBy(prev, cur, i, k)
    {
      if i == 3 {
        assert Feeds(prev[3], cur[i], k);
      } else {
        assert Feeds(prev[0], cur[i], k);
      }
    }
  }

  /** Within a tick, C samples what B drew, the ink pass samples what C drew,
      and the screen pass samples what the ink pass drew. */
  lemma PassesChainWithinTick(h: Handles)
    ensures Feeds(Frame(h)[1], Frame(h)[2], 0)
    ensures Feeds(Frame(h)[2], Frame(h)[3], 0)
    ensures Feeds(Frame(h)[3], Frame(h)[4], 0)
  {
  }

  /** B samples the texture A sampled in the same tick, never the one A has
      just drawn. */
  lemma BufferBReadsAInput(h: Handles)
    requires Distinct(h)
    ensures Frame(h)[1].inputs == Frame(h)[0].inputs
    ensures !Feeds(Frame(h)[0], Frame(h)[1], 0)
  {
  }

  /** From the second tick on, A and B both sample what A drew on the previous
      tick, and the ink pass's `colorTexture` is what the ink pass drew on the
      previous tick. */
  lemma FeedbackAcrossTicks(h: Handles, n: nat)
    requires n >= 1
    ensures Feeds(Frame(Run(h, n - 1))[0], Frame(Run(h, n))[0], 0)
    ensures Feeds(Frame(Run(h, n - 1))[0], Frame(Run(h, n))[1], 0)
    ensures Feeds(Frame(Run(h, n - 1))[3], Frame(Run(h, n))[3], 1)
  {
  }

  /** The module-level state of the render loop: the eight handles, the
      texture uniforms of the five materials, the ink pass's `uTime`, the
      renderer's current target, and the passes drawn in the current tick.
      The ghost `ticks` counts the completed ticks. */
  class Pipeline {
    const width: int
    const height: int
    ghost const initial: Handles

    var rt1: RenderTarget
    var rt2: RenderTarget
    var rtb1: RenderTarget
    var rtb2: RenderTarget
    var rtc1: RenderTarget
    var rtc2: RenderTarget
    var colorRT1: RenderTarget
    var colorRT2: RenderTarget

    /** `textureA` of materials A, B, C, D and of the final material, and
        `colorTexture` of material D; `None` is `null`. */
    var textureA: Option<RenderTarget>
    var textureB: Option<RenderTarget>
    var textureC: Option<RenderTarget>
    var textureD: Option<RenderTarget>
    var colorTextureD: Option<RenderTarget>
    var textureFinal: Option<RenderTarget>
    var uTime: real

    var renderTarget: Dest
    var frame: seq<Pass>
    ghost var ticks: nat

    function H(): Handles
      reads this`rt1, this`rt2, this`rtb1, this`rtb2, this`rtc1, this`rtc2, this`colorRT1, this`colorRT2
    {
      Handles(rt1, rt2, rtb1, rtb2, rtc1, rtc2, colorRT1, colorRT2)
    }

    ghost predicate Valid()
      reads this
    {
      && Distinct(initial)
      && SameShape(initial, width, height)
      && H() == Run(initial, ticks)
    }

    /** Allocation of the eight targets (lines 255-267) and the texture
        bindings the materials are created with. `rtc2` is cloned from `rtb1`,
        not from `rtc1`; it is still a new target of the same size. */
    constructor (width: int, height: int)
      ensures Valid() && ticks == 0 && frame == []
      ensures this.width == width && this.height == height
      ensures H() == initial && Distinct(H()) && SameShape(H(), width, height)
      ensures fresh(rt1) && fresh(rt2) && fresh(rtb1) && fresh(rtb2)
      ensures fresh(rtc1) && fresh(rtc2) && fresh(colorRT1) && fresh(colorRT2)
      ensures textureA == None && textureB == Some(rt2) && textureC == Some(rtb2)
      ensures textureD == Some(rtc2) && colorTextureD == Some(colorRT1) && textureFinal == None
      ensures uTime == 0.1 && renderTarget == Screen
    {
      var a1 := new RenderTarget(width, height);
      var a2 := a1.Clone();
      var b1 := new RenderTarget(width, height);
      var b2 := b1.Clone();
      var c1 := new RenderTarget(width, height);
      var c2 := b1.Clone();
      var k1 := new RenderTarget(width, height);
      var k2 := new RenderTarget(width, height);
      this.width, this.height := width, height;
      rt1, rt2, rtb1, rtb2, rtc1, rtc2, colorRT1, colorRT2 := a1, a2, b1, b2, c1, c2, k1, k2;
      textureA, textureB, textureC := None, Some(a2), Some(b2);
      textureD, colorTextureD, textureFinal := Some(c2), Some(k1), None;
      uTime := 0.1;
      renderTarget := Screen;
      frame := [];
      ticks := 0;
      initial := Handles(a1, a2, b1, b2, c1, c2, k1, k2);
    }

    /** The textures bound to the material of `stage`. */
    function Bound(stage: Stage): seq<RenderTarget>
      reads this`textureA, this`textureB, this`textureC, this`textureD, this`colorTextureD, this`textureFinal
    {
      match stage
      case BufferA => Slot(textureA)
      case BufferB => Slot(textureB)
      case BufferC => Slot(textureC)
      case BufferD => Slot(textureD) + Slot(colorTextureD)
      case Final => Slot(textureFinal)
    }

    /** `renderer.render(scene, camera)`: one pass into the current target. */
    method Render(stage: Stage)
      modifies this`frame
      ensures frame == old(frame) + [Pass(stage, Bound(stage), renderTarget)]
    {
      frame := frame + [Pass(stage, Bound(stage), renderTarget)];
    }

    /** Lines 387-392: draw buffer A from `rt1` into `rt2`, then swap the pair. */
    method DrawBufferA()
      modifies this
      ensures frame == old(frame) + [Pass(BufferA, [old(rt1)], Offscreen(old(rt2)))]
      ensures H() == SwapA(old(H())) && ticks == old(ticks)
      ensures textureA == Some(old(rt1)) && renderTarget == Offscreen(old(rt2))
      ensures textureB == old(textureB) && textureC == old(textureC) && textureD == old(textureD)
      ensures colorTextureD == old(colorTextureD) && textureFinal == old(textureFinal)
      ensures uTime == old(uTime)
    {
      textureA := Some(rt1);
      renderTarget := Offscreen(rt2);
      Render(BufferA);
      rt1, rt2 := rt2, rt1;
    }

    /** Lines 395-401: draw buffer B from `rt2` (after A's swap) into `rtb1`,
        then swap the pair. */
    method DrawBufferB()
      modifies this
      ensures frame == old(frame) + [Pass(BufferB, [rt2], Offscreen(old(rtb1)))]
      ensures H() == SwapB(old(H())) && ticks == old(ticks)
      ensures textureB == Some(rt2) && renderTarget == Offscreen(old(rtb1))
      ensures textureA == old(textureA) && textureC == old(textureC) && textureD == old(textureD)
      ensures colorTextureD == old(colorTextureD) && textureFinal == old(textureFinal)
      ensures uTime == old(uTime)
    {
      textureB := Some(rt2);
      renderTarget := Offscreen(rtb1);
      Render(BufferB);
      rtb1, rtb2 := rtb2, rtb1;
    }

    /** Lines 404-410: draw buffer C from `rtb2` (after B's swap) into `rtc1`,
        then swap the pair. */
    method DrawBufferC()
      modifies this
      ensures frame == old(frame) + [Pass(BufferC, [rtb2], Offscreen(old(rtc1)))]
      ensures H() == SwapC(old(H())) && ticks == old(ticks)
      ensures textureC == Some(rtb2) && renderTarget == Offscreen(old(rtc1))
      ensures textureA == old(textureA) && textureB == old(textureB) && textureD == old(textureD)
      ensures colorTextureD == old(colorTextureD) && textureFinal == old(textureFinal)
      ensures uTime == old(uTime)
    {
      textureC := Some(rtb2);
      renderTarget := Offscreen(rtc1);
      Render(BufferC);
      rtc1, rtc2 := rtc2, rtc1;
    }

    /** Lines 413-420: draw the ink pass from `rtc2` (after C's swap) and
        `colorRT1` into `colorRT2`. */
    method DrawInk(nowMs: real)
      modifies this
      ensures frame == old(frame) + [Pass(BufferD, [rtc2, colorRT1], Offscreen(colorRT2))]
      ensures H() == old(H()) && ticks == old(ticks)
      ensures uTime == nowMs / 1000.0
      ensures textureD == Some(rtc2) && colorTextureD == Some(colorRT1)
      ensures renderTarget == Offscreen(colorRT2)
      ensures textureA == old(textureA) && textureB == old(textureB) && textureC == old(textureC)
      ensures textureFinal == old(textureFinal)
    {
      uTime := nowMs / 1000.0;
      colorTextureD := Some(colorRT1);
      textureD := Some(rtc2);
      renderTarget := Offscreen(colorRT2);
      assert Bound(BufferD) == [rtc2, colorRT1];
      Render(BufferD);
    }

    /** Lines 423-426: draw the final material from `colorRT2` to the canvas. */
    method DrawFinal()
      modifies this
      ensures frame == old(frame) + [Pass(Final, [colorRT2], Screen)]
      ensures H() == old(H()) && ticks == old(ticks) && uTime == old(uTime)
      ensures textureFinal == Some(colorRT2) && renderTarget == Screen
      ensures textureA == old(textureA) && textureB == old(textureB) && textureC == old(textureC)
      ensures textureD == old(textureD) && colorTextureD == old(colorTextureD)
    {
      textureFinal := Some(colorRT2);
      renderTarget := Screen;
      Render(Final);
    }

    /** Lines 385-426: the five passes of a tick, with the three velocity
        swaps between them. */
    method DrawPasses(nowMs: real)
      modifies this
      ensures frame == Frame(old(H()))
      ensures H() == SwapC(SwapB(SwapA(old(H())))) && ticks == old(ticks)
      ensures uTime == nowMs / 1000.0
      ensures textureA == textureB == Some(old(rt1)) && textureC == Some(old(rtb1))
      ensures textureD == Some(old(rtc1)) && colorTextureD == Some(old(colorRT1))
      ensures textureFinal == Some(old(colorRT2)) && renderTarget == Screen
    {
      ghost var h0 := H();
      frame := [];
      DrawBufferA();
      DrawBufferB();
      DrawBufferC();
      DrawInk(nowMs);
      DrawFinal();
      FrameByAppends(h0);
    }

    /** One animation frame (lines 384-432). `nowMs` is `performance.now()`. */
    method Tick(nowMs: real)
      requires Valid()
      modifies this
      ensures Valid() && ticks == old(ticks) + 1
      ensures frame == Frame(old(H()))
      ensures H() == Exchanged(old(H()))
      ensures forall i | 0 <= i < |frame| :: !ReadsOwnTarget(frame[i])
      ensures uTime == nowMs / 1000.0
      ensures textureA == textureB == Some(old(rt1)) && textureC == Some(old(rtb1))
      ensures textureD == Some(old(rtc1)) && colorTextureD == Some(old(colorRT1))
      ensures textureFinal == Some(old(colorRT2)) && renderTarget == Screen
    {
      NoPassReadsItsOwnTargetEver(initial, ticks);
      DrawPasses(nowMs);
      colorRT1, colorRT2 := colorRT2, colorRT1;
      ticks := ticks + 1;
    }
  }

  function Slot(binding: Option<RenderTarget>): seq<RenderTarget> {
    match binding
    case Some(t) => [t]
    case None => []
  }
}
