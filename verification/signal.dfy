/** Sample-level primitives shared by every stage of the audio engine:
    stereo frames, blocks of frames, the sample-time grid, and the
    transcendental functions the generators use, kept uninterpreted. */
module Signal {

  /** One row of the application's (n, 2) sample arrays: column 0 is the
      left channel, column 1 the right one. */
  datatype Frame = Frame(left: real, right: real)

  /** The fixed output rate of the application, in samples per second. */
  const SampleRate: nat := 44100

  /** The double-precision value of pi that the application multiplies by. */
  const Pi: real := 3.141592653589793

  /** The floating-point sine, cosine and hyperbolic tangent, treated as
      unknown functions; `Bounded` is all the model assumes about them. */
  datatype Numerics = Numerics(sin: real -> real, cos: real -> real, tanh: real -> real)

  ghost predicate Bounded(num: Numerics) {
    && (forall x :: -1.0 <= num.sin(x) <= 1.0)
    && (forall x :: -1.0 <= num.cos(x) <= 1.0)
    && (forall x :: -1.0 <= num.tanh(x) <= 1.0)
  }

  /** A source of Gaussian draws: `noise(id, n)` is the value drawn for the
      track with id `id` at the n-th sample of a block. A fresh function is
      passed for every block, which is how the model says "fresh draws". */
  type Noise = (nat, nat) -> real

  /** The draws of `noise`, seen from `offset` samples further on. */
  function Shift(noise: Noise, offset: nat): Noise {
    (id: nat, n: nat) => noise(id, offset + n)
  }

  function Abs(x: real): real {
    if x < 0.0 then -x else x
  }

  function Max(a: real, b: real): real {
    if a < b then b else a
  }

  function Min(a: int, b: int): int {
    if a < b then a else b
  }

  /** The larger magnitude of the two channels of a frame. */
  function Magnitude(f: Frame): real {
    Max(Abs(f.left), Abs(f.right))
  }

  function Add(a: Frame, b: Frame): Frame {
    Frame(a.left + b.left, a.right + b.right)
  }

  function Scale(f: Frame, g: real): Frame {
    Frame(f.left * g, f.right * g)
  }

  const Silence: Frame := Frame(0.0, 0.0)

  /** `np.zeros((n, 2))`. */
  function Zeros(n: nat): (r: seq<Frame>)
    ensures |r| == n
    ensures forall j :: 0 <= j < n ==> r[j] == Silence
  {
    seq(n, _ => Silence)
  }

  /** Element-wise `a + b` of two blocks of the same shape. */
  function AddBlocks(a: seq<Frame>, b: seq<Frame>): (r: seq<Frame>)
    requires |a| == |b|
    ensures |r| == |a|
    ensures forall j :: 0 <= j < |a| ==> r[j] == Add(a[j], b[j])
  {
    seq(|a|, j requires 0 <= j < |a| => Add(a[j], b[j]))
  }

  /** Element-wise `a * g`. */
  function ScaleBlock(a: seq<Frame>, g: real): (r: seq<Frame>)
    ensures |r| == |a|
    ensures forall j :: 0 <= j < |a| ==> r[j] == Scale(a[j], g)
  {
    seq(|a|, j requires 0 <= j < |a| => Scale(a[j], g))
  }

  /** `np.arange(start, start + n) / sample_rate`: the times, in seconds,
      of n consecutive samples beginning with sample number `start`. */
  function TimeGrid(start: nat, n: nat): (t: seq<real>)
    ensures |t| == n
    ensures forall j :: 0 <= j < n ==> t[j] == (start + j) as real / SampleRate as real
  {
    seq(n, j => (start + j) as real / SampleRate as real)
  }

  /** Two grids that start where the other ends make one grid: blocks
      rendered back to back at an advancing sample counter cover the
      time axis without gap or overlap. */
  lemma TimeGridSplit(start: nat, m: nat, n: nat)
    ensures TimeGrid(start, m) + TimeGrid(start + m, n) == TimeGrid(start, m + n)
  {
    var whole := TimeGrid(start, m + n);
    var parts := TimeGrid(start, m) + TimeGrid(start + m, n);
    forall j | 0 <= j < m + n
      ensures parts[j] == whole[j]
    {
      if j >= m {
        assert parts[j] == TimeGrid(start + m, n)[j - m];
        assert start + m + (j - m) == start + j;
      }
    }
  }

  /** A window of a grid is the grid that starts at the window. */
  lemma TimeGridWindow(start: nat, n: nat, a: nat, b: nat)
    requires a <= b <= n
    ensures TimeGrid(start, n)[a..b] == TimeGrid(start + a, b - a)
  {
    var w := TimeGrid(start, n)[a..b];
    forall j | 0 <= j < b - a
      ensures w[j] == TimeGrid(start + a, b - a)[j]
    {
      assert w[j] == TimeGrid(start, n)[a + j];
      assert start + (a + j) == start + a + j;
    }
  }
}
