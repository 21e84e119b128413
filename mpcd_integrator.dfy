/**
 * The MPCD integrator of HOOMD-blue (hoomd/mpcd/__init__.py, class
 * `integrator`): the Python object that holds the time step and the
 * anisotropic mode, and wires the MD integration methods and the MPCD
 * streaming and collision methods into the C++ integrator.
 *
 * The C++ integrator is an abstract record (`Engine`) held by the Python
 * object; the global `hoomd.context.current` is an explicit `Context` input.
 * Warnings are returned, not printed. The multi-rate schedule promised by the
 * class docstring is stated on a pure clock model.
 */
module MpcdIntegrator {
  import opened Common

  /** `_md.IntegratorAnisotropicMode` */
  datatype AnisoMode = Automatic | Anisotropic | Isotropic

  /**
   * The Python value passed as `aniso`. Python's dictionary lookup compares
   * with `==`, under which 1 and 1.0 equal True and 0 and 0.0 equal False.
   */
  datatype AnisoArg = NoneArg | BoolArg(b: bool) | NumberArg(x: real) | OtherArg(text: string)

  /** A streaming method (`mpcd._stream`): its C++ object and its period. */
  datatype StreamMethod = StreamMethod(cpp: nat, period: int)

  /** A collision method (`mpcd._collide`): its C++ object and its period. */
  datatype CollideMethod = CollideMethod(cpp: nat, period: int)

  /** `hoomd.context.current.mpcd`: the MPCD system data. */
  datatype MpcdSystem = MpcdSystem(stream: Option<StreamMethod>, collide: Option<CollideMethod>)

  /**
   * `hoomd.context.current` as far as the integrator reads it: whether
   * `check_initialization` passes (an abstract readiness flag, since its
   * body is not part of this model), the MPCD system, and the C++ objects
   * of the MD `integration_methods`, in order.
   */
  datatype Context = Context(initialized: bool, mpcd: Option<MpcdSystem>, integrationMethods: seq<nat>)

  /** The C++ `mpcd::Integrator` state the Python object drives. */
  datatype Engine = Engine(
    deltaT: real,
    mode: AnisoMode,
    methods: seq<nat>,
    stream: Option<StreamMethod>,
    collide: Option<CollideMethod>)

  /** The exceptions the integrator raises. */
  datatype IntegratorError =
    | NoMpcdSystem                              // no MPCD system: RuntimeError, or AttributeError on None
    | NotInitialized                            // RuntimeError from check_initialization
    | UnknownAnisoMode(arg: AnisoArg)           // RuntimeError: unknown anisotropic mode
    | ZeroStreamPeriod                          // ZeroDivisionError from `%`
    | PeriodMismatch(collide: int, stream: int) // ValueError: periods not multiples

  /** The warnings `update_methods` prints. */
  datatype Warning = NoStreamingMethod | NoCollisionMethod

  /**
   * The `_aniso_modes` table, looked up with Python's `in` and `[]`: None is
   * Automatic, whatever equals True is Anisotropic, whatever equals False is
   * Isotropic, and every other value is missing.
   */
  function AnisoModes(a: AnisoArg): (r: Option<AnisoMode>)
    ensures r == Some(Automatic) <==> a == NoneArg
    ensures r == Some(Anisotropic) <==> a == BoolArg(true) || a == NumberArg(1.0)
    ensures r == Some(Isotropic) <==> a == BoolArg(false) || a == NumberArg(0.0)
    ensures r.None? <==> a.OtherArg? || (a.NumberArg? && a.x != 1.0 && a.x != 0.0)
  {
    match a
    case NoneArg => Some(Automatic)
    case BoolArg(b) => Some(if b then Anisotropic else Isotropic)
    case NumberArg(x) =>
      if x == 1.0 then Some(Anisotropic)
      else if x == 0.0 then Some(Isotropic)
      else None
    case OtherArg(_) => None
  }

  /** Python's `a % b` on integers: the remainder takes the sign of `b`. */
  function PyMod(a: int, b: int): (r: int)
    requires b != 0
    ensures r == 0 <==> a % b == 0
    ensures b > 0 ==> r == a % b
    ensures b < 0 ==> b < r <= 0 && (r == 0 || r - b == a % b)
  {
    var m := a % b;
    if b < 0 && m != 0 then m + b else m
  }

  /**
   * The period check of `update_methods`, for a streaming and a collision
   * method: a zero streaming period raises ZeroDivisionError, and otherwise
   * the check passes exactly when the streaming period divides the collision
   * period.
   */
  function PeriodCheck(s: StreamMethod, c: CollideMethod): (r: Option<IntegratorError>)
    ensures s.period == 0 ==> r == Some(ZeroStreamPeriod)
    ensures s.period != 0 ==>
      (r.None? <==> c.period % s.period == 0)
      && (r.Some? ==> r == Some(PeriodMismatch(c.period, s.period)))
  {
    if s.period == 0 then Some(ZeroStreamPeriod)
    else if PyMod(c.period, s.period) != 0 then Some(PeriodMismatch(c.period, s.period))
    else None
  }

  /** The MPCD integrator. */
  class Integrator {
    /** `self.dt` */
    var dt: real
    /** `self.aniso` */
    var aniso: AnisoArg
    /** `self.cpp_integrator` */
    var engine: Engine

    /** The Python fields agree with the C++ integrator. */
    ghost predicate Valid()
      reads this
    {
      engine.deltaT == dt && AnisoModes(aniso) == Some(engine.mode)
    }

    /**
     * The part of `__init__` after the MPCD system check: store dt and aniso
     * and build a C++ integrator with that time step and no methods. The C++
     * integrator starts in Automatic mode.
     */
    constructor (dt: real, aniso: AnisoArg)
      ensures this.dt == dt && this.aniso == aniso
      ensures engine == Engine(dt, Automatic, [], None, None)
    {
      this.dt := dt;
      this.aniso := aniso;
      engine := Engine(dt, Automatic, [], None, None);
    }

    /**
     * `set_params(dt=None, aniso=None)`: None leaves a parameter unchanged.
     * dt is applied before aniso is looked up, so an unknown aniso leaves the
     * new dt in place and only the anisotropic mode unchanged.
     */
    method SetParams(ctx: Context, dt: Option<real> := None, aniso: AnisoArg := NoneArg)
      returns (err: Option<IntegratorError>)
      modifies this
      ensures !ctx.initialized ==> err == Some(NotInitialized) && unchanged(this)
      ensures ctx.initialized ==>
        && this.dt == (if dt.Some? then dt.value else old(this.dt))
        && engine.deltaT == (if dt.Some? then dt.value else old(engine.deltaT))
        && engine.methods == old(engine.methods)
        && engine.stream == old(engine.stream)
        && engine.collide == old(engine.collide)
      ensures ctx.initialized && aniso == NoneArg ==>
        err.None? && this.aniso == old(this.aniso) && engine.mode == old(engine.mode)
      ensures ctx.initialized && aniso != NoneArg && AnisoModes(aniso).None? ==>
        err == Some(UnknownAnisoMode(aniso)) && this.aniso == old(this.aniso) && engine.mode == old(engine.mode)
      ensures ctx.initialized && aniso != NoneArg && AnisoModes(aniso).Some? ==>
        err.None? && this.aniso == aniso && engine.mode == AnisoModes(aniso).value
      ensures engine.mode == old(engine.mode) || engine.mode != Automatic
      ensures old(Valid()) ==> Valid()
    {
      if !ctx.initialized {
        return Some(NotInitialized);
      }
      err := None;
      if dt.Some? {
        this.dt := dt.value;
        engine := engine.(deltaT := dt.value);
      }
      if aniso != NoneArg {
        var mode := AnisoModes(aniso);
        if mode.None? {
          return Some(UnknownAnisoMode(aniso));
        }
        this.aniso := aniso;
        engine := engine.(mode := mode.value);
      }
    }

    /**
     * `update_methods()`: rebuild the C++ integrator's list of MD methods from
     * the context, then install or remove the streaming method and the
     * collision method. A missing method is a warning; a collision period
     * that is not a multiple of the streaming period raises ValueError after
     * the MD methods and the streaming method have been updated, and leaves
     * the collision method as it was.
     */
    method UpdateMethods(ctx: Context) returns (warnings: seq<Warning>, err: Option<IntegratorError>)
      modifies this
      ensures dt == old(dt) && aniso == old(aniso)
      ensures engine.deltaT == old(engine.deltaT) && engine.mode == old(engine.mode)
      ensures !ctx.initialized ==> warnings == [] && err == Some(NotInitialized) && engine == old(engine)
      ensures ctx.initialized ==> engine.methods == ctx.integrationMethods
      ensures ctx.initialized && ctx.mpcd.None? ==>
        warnings == [] && err == Some(NoMpcdSystem)
        && engine.stream == old(engine.stream) && engine.collide == old(engine.collide)
      ensures ctx.initialized && ctx.mpcd.Some? ==>
        var sys := ctx.mpcd.value;
        && engine.stream == sys.stream
        && (sys.collide.None? ==>
              err.None? && engine.collide == None
              && warnings == (if sys.stream.None? then [NoStreamingMethod] else []) + [NoCollisionMethod])
        && (sys.collide.Some? && sys.stream.Some? ==>
              err == PeriodCheck(sys.stream.value, sys.collide.value) && warnings == []
              && engine.collide == (if err.None? then sys.collide else old(engine.collide)))
        && (sys.collide.Some? && sys.stream.None? ==>
              err.None? && warnings == [NoStreamingMethod] && engine.collide == sys.collide)
      ensures old(Valid()) ==> Valid()
    {
      warnings := [];
      if !ctx.initialized {
        return [], Some(NotInitialized);
      }
      err := None;

      engine := engine.(methods := []);
      for i := 0 to |ctx.integrationMethods|
        invariant dt == old(dt) && aniso == old(aniso)
        invariant engine == old(engine).(methods := ctx.integrationMethods[..i])
      {
        engine := engine.(methods := engine.methods + [ctx.integrationMethods[i]]);
        assert ctx.integrationMethods[..i + 1] == ctx.integrationMethods[..i] + [ctx.integrationMethods[i]];
      }
      assert ctx.integrationMethods[..|ctx.integrationMethods|] == ctx.integrationMethods;

      if ctx.mpcd.None? {
        return [], Some(NoMpcdSystem);
      }
      var stream := ctx.mpcd.value.stream;
      if stream.Some? {
        engine := engine.(stream := stream);
      } else {
        warnings := warnings + [NoStreamingMethod];
        engine := engine.(stream := None);
      }

      var collide := ctx.mpcd.value.collide;
      if collide.Some? {
        if stream.Some? {
          if stream.value.period == 0 {
            return warnings, Some(ZeroStreamPeriod);
          }
          if PyMod(collide.value.period, stream.value.period) != 0 {
            return warnings, Some(PeriodMismatch(collide.value.period, stream.value.period));
          }
        }
        engine := engine.(collide := collide);
      } else {
        warnings := warnings + [NoCollisionMethod];
        engine := engine.(collide := None);
      }
    }
  }

  /**
   * `integrator(dt, aniso=None)`: raises RuntimeError before anything is set
   * when no MPCD system exists; otherwise builds the object and, when aniso is
   * not None, applies it through `set_params`, whose error propagates.
   */
  method NewIntegrator(ctx: Context, dt: real, aniso: AnisoArg := NoneArg)
    returns (r: Result<Integrator, IntegratorError>)
    ensures ctx.mpcd.None? ==> r == Failure(NoMpcdSystem)
    ensures ctx.mpcd.Some? && aniso != NoneArg && !ctx.initialized ==> r == Failure(NotInitialized)
    ensures ctx.mpcd.Some? && aniso != NoneArg && ctx.initialized && AnisoModes(aniso).None? ==>
      r == Failure(UnknownAnisoMode(aniso))
    ensures r.Success? <==> ctx.mpcd.Some? && (aniso == NoneArg || (ctx.initialized && AnisoModes(aniso).Some?))
    ensures r.Success? ==>
      && fresh(r.value)
      && r.value.Valid()
      && r.value.dt == dt && r.value.aniso == aniso
      && r.value.engine == Engine(dt, AnisoModes(aniso).value, [], None, None)
  {
    if ctx.mpcd.None? {
      return Failure(NoMpcdSystem);
    }
    var integ := new Integrator(dt, aniso);
    if aniso != NoneArg {
      var err := integ.SetParams(ctx, aniso := aniso);
      if err.Some? {
        return Failure(err.value);
      }
    }
    r := Success(integ);
  }

  // ---------------------------------------------------------------------
  // The multi-rate schedule of the class docstring: MD data advances every
  // time step, MPCD data jumps ahead a whole streaming interval at once.

  /**
   * A streaming or collision method with the given period acts on the steps
   * that are multiples of it (streaming also brings the MPCD data forward).
   */
  predicate ActsAt(t: nat, period: nat)
    requires period >= 1
  {
    t % period == 0
  }

  /**
   * The step whose state the MPCD particle data holds at time step t: the end
   * of the streaming interval t falls in, i.e. the least multiple of the
   * streaming period that is not before t.
   */
  function MpcdDataStep(t: nat, streamPeriod: nat): (r: nat)
    requires streamPeriod >= 1
    ensures r % streamPeriod == 0 && t <= r < t + streamPeriod
  {
    var rem := t % streamPeriod;
    if rem == 0 then t
    else
      var q := t / streamPeriod;
      assert t + (streamPeriod - rem) == (q + 1) * streamPeriod;
      MultipleMod(q + 1, streamPeriod);
      t + (streamPeriod - rem)
  }

  /** d * m is at least m for positive d and m. */
  lemma MulAtLeast(d: int, m: int)
    requires d >= 1 && m >= 1
    ensures d * m >= m
  {
  }

  /** A multiple of m leaves no remainder. */
  lemma MultipleMod(k: int, m: int)
    requires m >= 1
    ensures (k * m) % m == 0
  {
    var q := (k * m) / m;
    var r := (k * m) % m;
    assert k * m == q * m + r;
    var d := k - q;
    assert d * m == r;
    if d >= 1 {
      MulAtLeast(d, m);
    } else if d <= -1 {
      MulAtLeast(-d, m);
    }
  }

  /** Adding the period to a multiple of it gives the next multiple. */
  lemma NextMultiple(x: int, m: int)
    requires m >= 1 && x % m == 0
    ensures (x + m) % m == 0
  {
    var q := x / m;
    assert x + m == (q + 1) * m;
    MultipleMod(q + 1, m);
  }

  /** The steps whose state the MD and the MPCD particle data hold. */
  datatype Clock = Clock(md: nat, mpcd: nat)

  /**
   * One call of the integrator at time step `c.md`: MD data advances one step;
   * on a streaming step the MPCD data advances a whole streaming interval.
   */
  function Tick(c: Clock, streamPeriod: nat): Clock
    requires streamPeriod >= 1
  {
    if ActsAt(c.md, streamPeriod) then Clock(c.md + 1, c.mpcd + streamPeriod)
    else Clock(c.md + 1, c.mpcd)
  }

  /** The clock after n time steps from step 0. */
  function Run(streamPeriod: nat, n: nat): Clock
    requires streamPeriod >= 1
  {
    if n == 0 then Clock(0, 0) else Tick(Run(streamPeriod, n - 1), streamPeriod)
  }

  /**
   * After n steps the MD data is at step n and the MPCD data at the end of the
   * current streaming interval (with period 5, step 3 shows MPCD step 5).
   */
  lemma {:induction false} RunMatchesDocstring(streamPeriod: nat, n: nat)
    requires streamPeriod >= 1
    ensures Run(streamPeriod, n) == Clock(n, MpcdDataStep(n, streamPeriod))
  {
    if n > 0 {
      RunMatchesDocstring(streamPeriod, n - 1);
      var m := n - 1;
      var prev := MpcdDataStep(m, streamPeriod);
      if m % streamPeriod == 0 {
        NextMultiple(m, streamPeriod);
        UniqueBoundary(n, m + streamPeriod, streamPeriod);
      } else {
        UniqueBoundary(n, prev, streamPeriod);
      }
    }
  }

  /** A multiple of the period in [t, t + period) is the MPCD data step of t. */
  lemma UniqueBoundary(t: nat, r: nat, streamPeriod: nat)
    requires streamPeriod >= 1
    requires r % streamPeriod == 0 && t <= r < t + streamPeriod
    ensures r == MpcdDataStep(t, streamPeriod)
  {
    var q := MpcdDataStep(t, streamPeriod);
    if r != q {
      DistinctMultiplesApart(r, q, streamPeriod);
      assert false;
    }
  }

  /** Two different multiples of m are at least m apart. */
  lemma DistinctMultiplesApart(a: nat, b: nat, m: nat)
    requires m >= 1 && a % m == 0 && b % m == 0 && a != b
    ensures a >= b + m || b >= a + m
  {
    var qa, qb := a / m, b / m;
    assert a == qa * m && b == qb * m;
    if qa > qb {
      MulAtLeast(qa - qb, m);
      assert a - b == (qa - qb) * m;
    } else {
      MulAtLeast(qb - qa, m);
      assert b - a == (qb - qa) * m;
    }
  }

  /**
   * The rule `update_methods` enforces, read over the schedule: the collision
   * period is a multiple of the streaming period exactly when every collision
   * step is also a streaming step, so collisions always see freshly streamed
   * MPCD data.
   */
  lemma CollisionStepsAreStreamingSteps(streamPeriod: nat, collidePeriod: nat)
    requires streamPeriod >= 1 && collidePeriod >= 1
    ensures collidePeriod % streamPeriod == 0 <==>
      forall t: nat :: ActsAt(t, collidePeriod) ==> ActsAt(t, streamPeriod)
  {
    if collidePeriod % streamPeriod == 0 {
      forall t: nat | ActsAt(t, collidePeriod)
        ensures ActsAt(t, streamPeriod)
      {
        var a := t / collidePeriod;
        var b := collidePeriod / streamPeriod;
        assert t == a * collidePeriod;
        assert collidePeriod == b * streamPeriod;
        assert t == (a * b) * streamPeriod;
        MultipleMod(a * b, streamPeriod);
      }
    } else {
      assert ActsAt(collidePeriod, collidePeriod);
    }
  }
}
