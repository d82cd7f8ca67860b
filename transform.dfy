/** GpuTransformProgram (webgl/transform.js): a shader program with an
    optional output frame buffer it owns. exec binds the program, binds the
    caller's arguments to the program's uniforms in the program's declaration
    order, and draws into the output. The GL side is a log of the calls the
    program makes; a sampler argument is a frame buffer that is attached to
    the next free texture unit. */
module Transform {
  import opened JsValues
  import opened FrameBuffer

  // The uniform type tags WebGL 2 reports (getActiveUniform().type).
  const SAMPLER_2D: int := 0x8B5E
  const BOOL: int := 0x8B56
  const INT: int := 0x1404
  const UNSIGNED_INT: int := 0x1405
  const FLOAT: int := 0x1406
  const FLOAT_VEC2: int := 0x8B50
  const FLOAT_VEC3: int := 0x8B51
  const FLOAT_VEC4: int := 0x8B52

  /** A uniform as the linked program declares it. */
  datatype UniformSpec = UniformSpec(name: string, size: int, glType: int)

  /** A value the caller passes for a uniform. A name missing from the
      argument map stands for `undefined`. */
  datatype ArgValue =
    | NullArg
    | BoolArg(b: bool)
    | NumArg(n: Num)
    | ArrayArg(values: seq<Num>)
    | BufferArg(fb: GpuFrameBuffer)

  /** JavaScript truthiness of an argument. */
  predicate Truthy(v: ArgValue)
  {
    match v
    case NullArg => false
    case BoolArg(b) => b
    case NumArg(n) => n.Inf? || (n.Finite? && n.value != 0.0)
    case ArrayArg(_) => true
    case BufferArg(_) => true
  }

  /** One uniform set by bindArgs. */
  datatype Binding =
    | Uniform1i(name: string, arg: ArgValue)
    | Uniform1ui(name: string, arg: ArgValue)
    | Uniform1f(name: string, arg: ArgValue)
    | UniformVec(name: string, components: seq<Num>)
    | BindSampler(name: string, unit: int)

  /** Why bindArgs throws. */
  datatype BindError =
    | MissingArg(name: string)
    | ArrayUniform(name: string)
    | MissingSampler(name: string)
    | NotAttachable(name: string)     // a truthy sampler argument without attach()
    | NotIterable(name: string)       // a vector uniform given a value that cannot be spread
    | TooFewComponents(name: string)  // a vector uniform given fewer values than it has components
    | UnknownType(name: string, glType: int)

  /** The calls a program makes. */
  datatype Action =
    | UseProgram
    | Bind(binding: Binding)
    | Blit(target: GpuFrameBuffer?)   // null draws to the canvas
    | DestroyOutput
    | DestroyProgram

  /** The components of a vector type. */
  function VecWidth(glType: int): nat
  {
    if glType == FLOAT_VEC2 then 2 else if glType == FLOAT_VEC3 then 3 else 4
  }

  predicate IsVec(glType: int)
  {
    glType == FLOAT_VEC2 || glType == FLOAT_VEC3 || glType == FLOAT_VEC4
  }

  /** Whether binding u attaches a frame buffer: a present sampler argument
      that is a frame buffer, for a sampler uniform of size 1. */
  predicate AttachesBuffer(u: UniformSpec, args: map<string, ArgValue>)
  {
    u.name in args && u.size == 1 && u.glType == SAMPLER_2D && args[u.name].BufferArg?
  }

  /** One pass of bindArgs' loop for uniform u with `unit` samplers handed out
      so far: the binding it makes and the next free unit, or the error it
      throws. An absent argument is reported before the size, and the size
      before the type. */
  function BindOne(u: UniformSpec, args: map<string, ArgValue>, unit: nat): (r: Result<(Binding, nat), BindError>)
    ensures u.name !in args ==> r == Err(MissingArg(u.name))
    ensures u.name in args && u.size != 1 ==> r == Err(ArrayUniform(u.name))
    ensures r.Ok? ==> r.value.0.name == u.name
    ensures r.Ok? ==> (r.value.0.BindSampler? <==> u.glType == SAMPLER_2D)
    ensures r.Ok? && r.value.0.BindSampler? ==> r.value.0.unit == unit && r.value.1 == unit + 1
    ensures r.Ok? && !r.value.0.BindSampler? ==> r.value.1 == unit
    ensures u.glType == SAMPLER_2D && u.name in args && !Truthy(args[u.name]) && u.size == 1
            ==> r == Err(MissingSampler(u.name))
    ensures r.Ok? ==> u.glType in {SAMPLER_2D, BOOL, INT, UNSIGNED_INT, FLOAT, FLOAT_VEC2, FLOAT_VEC3, FLOAT_VEC4}
    ensures r.Ok? && IsVec(u.glType) ==> r.value.0.UniformVec? && |r.value.0.components| == VecWidth(u.glType)
    // the dispatch on the type tag, for a present argument of a size-1 uniform
    ensures u.name in args && u.size == 1 && (u.glType == BOOL || u.glType == INT)
            ==> r == Ok((Uniform1i(u.name, args[u.name]), unit))
    ensures u.name in args && u.size == 1 && u.glType == UNSIGNED_INT
            ==> r == Ok((Uniform1ui(u.name, args[u.name]), unit))
    ensures u.name in args && u.size == 1 && u.glType == FLOAT
            ==> r == Ok((Uniform1f(u.name, args[u.name]), unit))
    ensures AttachesBuffer(u, args) ==> r == Ok((BindSampler(u.name, unit), unit + 1))
    ensures u.name in args && u.size == 1 && u.glType == SAMPLER_2D
            && Truthy(args[u.name]) && !args[u.name].BufferArg?
            ==> r == Err(NotAttachable(u.name))
    ensures u.name in args && u.size == 1 && IsVec(u.glType) && !args[u.name].ArrayArg?
            ==> r == Err(NotIterable(u.name))
    ensures u.name in args && u.size == 1 && IsVec(u.glType) && args[u.name].ArrayArg?
            && |args[u.name].values| < VecWidth(u.glType)
            ==> r == Err(TooFewComponents(u.name))
    ensures u.name in args && u.size == 1
            && u.glType !in {SAMPLER_2D, BOOL, INT, UNSIGNED_INT, FLOAT, FLOAT_VEC2, FLOAT_VEC3, FLOAT_VEC4}
            ==> r == Err(UnknownType(u.name, u.glType))
  {
    if u.name !in args then Err(MissingArg(u.name))
    else if u.size != 1 then Err(ArrayUniform(u.name))
    else
      var arg := args[u.name];
      if u.glType == SAMPLER_2D then
        if !Truthy(arg) then Err(MissingSampler(u.name))
        else if !arg.BufferArg? then Err(NotAttachable(u.name))
        else Ok((BindSampler(u.name, unit), unit + 1))
      else if u.glType == BOOL || u.glType == INT then Ok((Uniform1i(u.name, arg), unit))
      else if u.glType == UNSIGNED_INT then Ok((Uniform1ui(u.name, arg), unit))
      else if u.glType == FLOAT then Ok((Uniform1f(u.name, arg), unit))
      else if IsVec(u.glType) then
        if !arg.ArrayArg? then Err(NotIterable(u.name))
        else if |arg.values| < VecWidth(u.glType) then Err(TooFewComponents(u.name))
        else Ok((UniformVec(u.name, arg.values[..VecWidth(u.glType)]), unit))
      else Err(UnknownType(u.name, u.glType))
  }

  /** What bindArgs does: the bindings made in order, and the error that
      stopped it, if any. */
  datatype Outcome = Outcome(bound: seq<Binding>, error: Option<BindError>)

  /** bindArgs over the uniforms `us`, with `unit` samplers handed out before them. */
  function Plan(us: seq<UniformSpec>, args: map<string, ArgValue>, unit: nat): Outcome
    decreases |us|
  {
    if us == [] then Outcome([], None)
    else
      match BindOne(us[0], args, unit)
      case Err(e) => Outcome([], Some(e))
      case Ok((b, next)) =>
        var rest := Plan(us[1..], args, next);
        Outcome([b] + rest.bound, rest.error)
  }

  /** One step of Plan. */
  lemma PlanCons(us: seq<UniformSpec>, args: map<string, ArgValue>, unit: nat)
    requires us != []
    ensures BindOne(us[0], args, unit).Err? ==>
              Plan(us, args, unit) == Outcome([], Some(BindOne(us[0], args, unit).error))
    ensures BindOne(us[0], args, unit).Ok? ==>
              var next := BindOne(us[0], args, unit).value;
              Plan(us, args, unit) == Outcome([next.0] + Plan(us[1..], args, next.1).bound,
                                              Plan(us[1..], args, next.1).error)
  {
  }

  /** One step of Plan from position i, with the bindings made before it. */
  lemma PlanAt(us: seq<UniformSpec>, i: nat, args: map<string, ArgValue>, unit: nat,
               done: seq<Binding>, plan: Outcome)
    requires i < |us|
    requires plan == Outcome(done + Plan(us[i..], args, unit).bound, Plan(us[i..], args, unit).error)
    ensures BindOne(us[i], args, unit).Err? ==>
              plan == Outcome(done, Some(BindOne(us[i], args, unit).error))
    ensures BindOne(us[i], args, unit).Ok? ==>
              var next := BindOne(us[i], args, unit).value;
              plan == Outcome((done + [next.0]) + Plan(us[i + 1..], args, next.1).bound,
                              Plan(us[i + 1..], args, next.1).error)
  {
    PlanCons(us[i..], args, unit);
    assert us[i..][0] == us[i] && us[i..][1..] == us[i + 1..];
    assert done + [] == done;
    if BindOne(us[i], args, unit).Ok? {
      var next := BindOne(us[i], args, unit).value;
      var tail := Plan(us[i + 1..], args, next.1).bound;
      assert done + ([next.0] + tail) == (done + [next.0]) + tail;
    }
  }

  /** The number of samplers among some bindings. */
  function Samplers(bs: seq<Binding>): nat
  {
    if bs == [] then 0 else (if bs[0].BindSampler? then 1 else 0) + Samplers(bs[1..])
  }

  /** Uniforms are bound in declaration order and binding stops at the first
      error: the i-th binding is for the i-th uniform, everything is bound
      exactly when there is no error, and the error is the one the first
      unbound uniform raises. */
  lemma {:induction false} PlanInOrder(us: seq<UniformSpec>, args: map<string, ArgValue>, unit: nat)
    ensures var r := Plan(us, args, unit);
            |r.bound| <= |us|
            && (forall i :: 0 <= i < |r.bound| ==> r.bound[i].name == us[i].name)
            && (r.error.None? <==> |r.bound| == |us|)
            && (r.error.Some? ==>
                  BindOne(us[|r.bound|], args, unit + Samplers(r.bound)) == Err(r.error.value))
    decreases |us|
  {
    if us != [] {
      match BindOne(us[0], args, unit)
      case Err(e) =>
      case Ok((b, next)) =>
        PlanInOrder(us[1..], args, next);
        var rest := Plan(us[1..], args, next);
        assert Samplers([b] + rest.bound) == (if b.BindSampler? then 1 else 0) + Samplers(rest.bound) by {
          assert ([b] + rest.bound)[1..] == rest.bound;
        }
    }
  }

  /** Sampler uniforms receive the texture units unit, unit + 1, ... in
      declaration order; other uniforms do not use up a unit. */
  lemma {:induction false} SamplerUnits(us: seq<UniformSpec>, args: map<string, ArgValue>, unit: nat, i: nat)
    requires i < |Plan(us, args, unit).bound|
    ensures var bs := Plan(us, args, unit).bound;
            bs[i].BindSampler? ==> bs[i].unit == unit + Samplers(bs[..i])
    decreases |us|
  {
    match BindOne(us[0], args, unit)
    case Err(e) =>
    case Ok((b, next)) =>
      var rest := Plan(us[1..], args, next);
      var bs := [b] + rest.bound;
      if i > 0 {
        SamplerUnits(us[1..], args, next, i - 1);
        assert bs[..i] == [b] + rest.bound[..i - 1];
        assert bs[..i][1..] == rest.bound[..i - 1];
      }
  }

  /** Arguments no uniform is declared with are ignored. */
  lemma {:induction false} UndeclaredIgnored(us: seq<UniformSpec>, args: map<string, ArgValue>,
                                             key: string, v: ArgValue, unit: nat)
    requires forall u :: u in us ==> u.name != key
    ensures Plan(us, args[key := v], unit) == Plan(us, args, unit)
    decreases |us|
  {
    if us != [] {
      assert BindOne(us[0], args[key := v], unit) == BindOne(us[0], args, unit);
      match BindOne(us[0], args, unit)
      case Err(e) =>
      case Ok((b, next)) =>
        UndeclaredIgnored(us[1..], args, key, v, next);
    }
  }

  /** For the scalar types any present argument is bound as it is: 0, false
      and null are not treated as missing. */
  lemma ScalarPresentBinds(u: UniformSpec, args: map<string, ArgValue>, unit: nat)
    requires u.name in args && u.size == 1
    requires u.glType in {BOOL, INT, UNSIGNED_INT, FLOAT}
    ensures BindOne(u, args, unit).Ok?
    ensures BindOne(u, args, unit).value.0.arg == args[u.name]
  {
  }

  /** A vector uniform takes the first components of a long enough array and
      ignores the rest. */
  lemma VecTakesPrefix(u: UniformSpec, args: map<string, ArgValue>, unit: nat)
    requires u.name in args && u.size == 1 && IsVec(u.glType)
    requires args[u.name].ArrayArg? && |args[u.name].values| >= VecWidth(u.glType)
    ensures BindOne(u, args, unit) == Ok((UniformVec(u.name, args[u.name].values[..VecWidth(u.glType)]), unit))
  {
  }

  /** The frame buffers among the arguments. */
  function Buffers(args: map<string, ArgValue>): set<GpuFrameBuffer>
  {
    set k | k in args && args[k].BufferArg? :: args[k].fb
  }

  /** The frame buffers that some sampler uniform among `us` would attach. */
  function SamplerBuffers(us: seq<UniformSpec>, args: map<string, ArgValue>): set<GpuFrameBuffer>
  {
    set u | u in us && AttachesBuffer(u, args) :: args[u.name].fb
  }

  predicate BuffersValid(args: map<string, ArgValue>)
    reads Buffers(args)
  {
    forall fb :: fb in Buffers(args) ==> fb.Valid()
  }

  /** The body of bindArgs' loop for one uniform: look the argument up,
      check it, and bind it by type; a sampler argument is attached to the
      next free unit. */
  method BindUniform(u: UniformSpec, args: map<string, ArgValue>, nSamplers: nat)
    returns (r: Result<(Binding, nat), BindError>)
    requires BuffersValid(args)
    modifies Buffers(args)
    ensures BuffersValid(args)
    ensures r == BindOne(u, args, nSamplers)
    // a sampler's buffer is attached to unit nSamplers, re-uploading its bound source
    ensures AttachesBuffer(u, args) ==>
              var fb := args[u.name].fb;
              fb.texels == (if fb.source.Some? then Staged(old(fb.source.value[..]), fb.Capacity()) else old(fb.texels))
              && fb.glLog == old(fb.glLog) + [BindTexture(nSamplers)]
                             + (if fb.source.Some? then [TexImage(fb.texels)] else [])
              && fb.tempbuf == old(fb.tempbuf)
    // every other buffer is left as it was
    ensures forall fb :: fb in Buffers(args) && !(AttachesBuffer(u, args) && fb == args[u.name].fb) ==> unchanged(fb)
  {
    if u.name !in args {
      return Err(MissingArg(u.name));
    }
    var arg := args[u.name];
    if u.size != 1 {
      return Err(ArrayUniform(u.name));
    }
    if u.glType == SAMPLER_2D {
      if !Truthy(arg) {
        return Err(MissingSampler(u.name));
      }
      if !arg.BufferArg? {
        return Err(NotAttachable(u.name));
      }
      assert arg.fb in Buffers(args);
      var unit := arg.fb.Attach(nSamplers);
      return Ok((BindSampler(u.name, unit), nSamplers + 1));
    } else if u.glType == BOOL || u.glType == INT {
      return Ok((Uniform1i(u.name, arg), nSamplers));
    } else if u.glType == UNSIGNED_INT {
      return Ok((Uniform1ui(u.name, arg), nSamplers));
    } else if u.glType == FLOAT {
      return Ok((Uniform1f(u.name, arg), nSamplers));
    } else if IsVec(u.glType) {
      if !arg.ArrayArg? {
        return Err(NotIterable(u.name));
      }
      if |arg.values| < VecWidth(u.glType) {
        return Err(TooFewComponents(u.name));
      }
      return Ok((UniformVec(u.name, arg.values[..VecWidth(u.glType)]), nSamplers));
    } else {
      return Err(UnknownType(u.name, u.glType));
    }
  }

  /** Where exec draws: its default (the program's own output), the DUMMY
      marker, an explicit null (the canvas) or a given buffer. */
  datatype Target = DefaultOutput | Dummy | Canvas | Into(fb: GpuFrameBuffer)

  class GpuTransformProgram {
    /** The output buffer the program owns, if any. */
    const output: GpuFrameBuffer?
    /** The uniforms of the linked program, in declaration order. */
    const uniforms: seq<UniformSpec>
    var calls: seq<Action>

    /** The buffer exec draws into for a target other than Dummy. */
    function Resolve(target: Target): GpuFrameBuffer?
    {
      match target
      case DefaultOutput => output
      case Canvas => null
      case Into(fb) => fb
      case Dummy => null
    }

    constructor Init(output: GpuFrameBuffer?, uniforms: seq<UniformSpec>)
      ensures this.output == output && this.uniforms == uniforms && calls == []
    {
      this.output := output;
      this.uniforms := uniforms;
      calls := [];
    }

    /** new GpuTransformProgram(glctx, {size, width, height, channels}):
        width and height default to size, and an output buffer is created
        exactly when width * height is not 0 (creating it can throw). */
    static method Create(size: nat, width: nat, height: nat, channels: nat,
                         uniforms: seq<UniformSpec>, limits: Limits, textureCreated: bool)
      returns (r: Result<GpuTransformProgram, FbError>)
      requires (if width != 0 then width else size) * (if height != 0 then height else size) != 0
               ==> 1 <= channels <= 4
      ensures var w, h := (if width != 0 then width else size), (if height != 0 then height else size);
              var check := CheckOptions(FbOptions(0, w, h, channels, NoSource), limits);
              (w * h == 0 ==> r.Ok? && r.value.output == null)
              && (w * h != 0 && check.Err? ==> r == Err(check.error))
              && (w * h != 0 && check.Ok? ==>
                    r.Ok? && r.value.output != null && fresh(r.value.output) && r.value.output.Valid()
                    && r.value.output.width == w && r.value.output.height == h
                    && r.value.output.channels == channels)
      ensures r.Ok? ==> fresh(r.value) && r.value.uniforms == uniforms && r.value.calls == []
    {
      var w := if width != 0 then width else size;
      var h := if height != 0 then height else size;
      var output: GpuFrameBuffer? := null;
      if w * h != 0 {
        var fb := GpuFrameBuffer.Create(FbOptions(0, w, h, channels, NoSource), limits, textureCreated);
        if fb.Err? {
          return Err(fb.error);
        }
        output := fb.value;
      }
      var p := new GpuTransformProgram.Init(output, uniforms);
      return Ok(p);
    }

    /** destroy(): the output buffer first, then the program. */
    method Destroy()
      modifies this, output
      ensures calls == old(calls) + (if output != null then [DestroyOutput] else []) + [DestroyProgram]
      ensures output != null ==>
                output.glLog == old(output.glLog) + (if output.hasTexture then [DeleteTexture] else [])
    {
      if output != null {
        output.Destroy();
        calls := calls + [DestroyOutput];
      }
      calls := calls + [DestroyProgram];
    }

    /** bindArgs(args): for each declared uniform in order, the argument is
        looked up, checked and bound by type; samplers are attached to units
        0, 1, ... The first failure stops the loop and what was bound stays
        bound. */
    method BindArgs(args: map<string, ArgValue>) returns (err: Option<BindError>)
      requires BuffersValid(args)
      modifies this, Buffers(args)
      ensures BuffersValid(args)
      ensures calls == old(calls) + Bound(Plan(uniforms, args, 0).bound)
      ensures err == Plan(uniforms, args, 0).error
      ensures forall fb :: fb in Buffers(args) && fb !in SamplerBuffers(uniforms, args) ==> unchanged(fb)
    {
      var nSamplers := 0;
      var i := 0;
      ghost var done: seq<Binding> := [];
      ghost var plan := Plan(uniforms, args, 0);
      assert uniforms[0..] == uniforms;
      while i < |uniforms|
        invariant 0 <= i <= |uniforms|
        invariant BuffersValid(args)
        invariant calls == old(calls) + Bound(done)
        invariant forall fb :: fb in Buffers(args) && fb !in SamplerBuffers(uniforms, args) ==> unchanged(fb)
        invariant plan == Outcome(done + Plan(uniforms[i..], args, nSamplers).bound,
                                  Plan(uniforms[i..], args, nSamplers).error)
      {
        PlanAt(uniforms, i, args, nSamplers, done, plan);
        var step := BindUniform(uniforms[i], args, nSamplers);
        if step.Err? {
          return Some(step.error);
        }
        var b;
        b, nSamplers := step.value.0, step.value.1;
        calls := calls + [Bind(b)];
        BoundSnoc(done, b);
        done := done + [b];
        i := i + 1;
      }
      assert uniforms[i..] == [];
      return None;
    }

    /** The frame buffer a draw into `target` writes, as a set: empty for
        the canvas and for DUMMY. */
    function TargetSet(target: Target): set<GpuFrameBuffer>
    {
      if Resolve(target) == null then {} else {Resolve(target)}
    }

    /** exec(args, output): nothing for the DUMMY target; otherwise use the
        program, bind the arguments and, if that did not throw, draw into
        the target. The shaders are not modelled: `shaded` is what the
        fragment shader writes, one value per stored component of the
        target buffer. */
    method Exec(args: map<string, ArgValue>, target: Target, shaded: seq<Num>) returns (err: Option<BindError>)
      requires BuffersValid(args)
      requires Resolve(target) != null ==> Resolve(target).Valid() && |shaded| == Resolve(target).Capacity()
      modifies this, Buffers(args), TargetSet(target)
      ensures BuffersValid(args)
      ensures target.Dummy? ==> err.None? && calls == old(calls)
      ensures !target.Dummy? ==>
                var plan := Plan(uniforms, args, 0);
                err == plan.error
                && calls == old(calls) + [UseProgram] + Bound(plan.bound)
                            + (if plan.error.None? then [Blit(Resolve(target))] else [])
      ensures target.Dummy? ==> forall fb :: fb in Buffers(args) ==> unchanged(fb)
      // the draw: a target buffer holds what the shader wrote and stays valid
      ensures !target.Dummy? && err.None? && Resolve(target) != null ==>
                Resolve(target).texels == shaded && Resolve(target).Valid()
                && (Resolve(target) !in SamplerBuffers(uniforms, args) ==>
                      Resolve(target).glLog == old(Resolve(target).glLog)
                      && Resolve(target).tempbuf == old(Resolve(target).tempbuf))
      // binding that throws draws nothing
      ensures err.Some? && Resolve(target) != null && Resolve(target) !in Buffers(args) ==>
                unchanged(Resolve(target))
      ensures forall fb ::
                fb in Buffers(args) && fb !in SamplerBuffers(uniforms, args) && (err.Some? || fb != Resolve(target))
                ==> unchanged(fb)
    {
      if target.Dummy? {
        return None;
      }
      calls := calls + [UseProgram];
      err := BindArgs(args);
      if err.Some? {
        return;
      }
      calls := calls + [Blit(Resolve(target))];
      var out := Resolve(target);
      if out != null {
        out.Render(shaded);
      }
    }
  }

  /** The log entries of some bindings. */
  function Bound(bs: seq<Binding>): (r: seq<Action>)
    ensures |r| == |bs|
    ensures forall i :: 0 <= i < |bs| ==> r[i] == Bind(bs[i])
  {
    seq(|bs|, i requires 0 <= i < |bs| => Bind(bs[i]))
  }

  lemma BoundSnoc(a: seq<Binding>, b: Binding)
    ensures Bound(a + [b]) == Bound(a) + [Bind(b)]
  {
  }
}
