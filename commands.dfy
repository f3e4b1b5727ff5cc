/**
 * boat/commands/command.py: a `Command` wraps a handler, compiles its declared
 * parameter list into a calling convention once, and on invocation removes the
 * invoking `prefix + name + " "` from the context's content before calling it.
 */
module Commands {
  import opened Errors
  import opened Contexts
  import opened Handlers

  /** The scan state of `parse_params`. */
  datatype Mode = Positional | NonPositional

  /** The classification of a declared parameter. */
  datatype Parameter = Context | Positional | NonPositional

  /**
   * An entry of the compiled list. The source rewrites its list of names in place,
   * so an entry is either still the declared name or has been replaced by its class.
   */
  datatype Slot = Raw(name: string) | Bound(kind: Parameter)

  /** `params` and `length` as `parse_params` leaves them. */
  datatype Signature = Signature(params: seq<Slot>, length: nat)

  /**
   * The first index at or after `from` whose entry is the separator `"*"` (when
   * `star`) or is not (when `!star`); `|declared|` when there is none.
   */
  function NextWhere(declared: seq<string>, from: nat, star: bool): (k: nat)
    requires from <= |declared|
    ensures from <= k <= |declared|
    ensures k < |declared| ==> (declared[k] == "*") == star
    ensures forall j :: from <= j < k ==> (declared[j] == "*") != star
    decreases |declared| - from
  {
    if from == |declared| || (declared[from] == "*") == star then from
    else NextWhere(declared, from + 1, star)
  }

  /**
   * Entry `i` of the compiled list, given the first separator `star` (scanning from
   * index 1) and the first non-separator `remainder` after it.
   */
  function SlotAt(declared: ParamList, star: nat, remainder: nat, i: nat): Slot
    requires i < |declared|
  {
    if i == 0 then Bound(Parameter.Context)
    else if i < star then Bound(Parameter.Positional)
    else if i == remainder then Bound(Parameter.NonPositional)
    else Raw(declared[i])
  }

  /**
   * The calling convention a declared parameter list compiles to: the first entry
   * is the context; every entry before the first `"*"` is positional; the first
   * entry after the run of separators is the one non-positional entry; everything
   * else keeps its raw name. Each separator in that run is not counted in `length`.
   */
  function Compile(declared: ParamList): (r: Result<Signature>)
    ensures r.Ok? ==> |r.value.params| == |declared| && 1 <= r.value.length <= |declared|
  {
    if declared == [""] then Err(InvalidParameters)
    else
      var star := NextWhere(declared, 1, true);
      var remainder := NextWhere(declared, star, false);
      Ok(Signature(seq(|declared|, i requires 0 <= i < |declared| => SlotAt(declared, star, remainder, i)),
                   |declared| - (remainder - star)))
  }

  /** `parse_params`: the in-place rewrite of the declared list, driven by `mode`. */
  method ParseParams(declared: ParamList) returns (r: Result<Signature>)
    ensures r == Compile(declared)
  {
    var args := new Slot[|declared|](i requires 0 <= i < |declared| => Raw(declared[i]));
    var mode := Mode.Positional;
    var length: int := |declared|;
    if declared == [""] {
      return Err(InvalidParameters);
    }
    args[0] := Bound(Parameter.Context);
    ghost var star := NextWhere(declared, 1, true);
    ghost var remainder := NextWhere(declared, star, false);
    var index := 1;
    while index < args.Length
      invariant 1 <= index <= remainder
      invariant mode == if index > star then Mode.NonPositional else Mode.Positional
      invariant length == |declared| - if index > star then index - star else 0
      invariant forall i :: 0 <= i < args.Length ==>
        args[i] == if i == 0 then Bound(Parameter.Context)
                   else if i < index && i < star then Bound(Parameter.Positional)
                   else Raw(declared[i])
    {
      // The loop walks a copy of `args[1:]`, so it reads the declared names.
      var arg := declared[index];
      if arg == "*" {
        mode := Mode.NonPositional;
        length := length - 1;
        index := index + 1;
        continue;
      }
      if mode == Mode.Positional {
        args[index] := Bound(Parameter.Positional);
      }
      if mode == Mode.NonPositional {
        args[index] := Bound(Parameter.NonPositional);
      }
      if mode == Mode.NonPositional {
        break;
      }
      index := index + 1;
    }
    assert args[..] == seq(|declared|, i requires 0 <= i < |declared| => SlotAt(declared, star, remainder, i));
    return Ok(Signature(args[..], length));
  }

  /**
   * Python's `content[len(invoker):]`: drops as many leading characters as the
   * invoker has, whatever they are; a content shorter than that becomes empty.
   */
  function Strip(content: string, invoker: string): (rest: string)
    ensures invoker <= content ==> content == invoker + rest
    ensures |content| < |invoker| ==> rest == ""
    ensures |invoker| <= |content| ==> |invoker| + |rest| == |content|
    ensures rest == content[|content| - |rest|..]
  {
    if |invoker| <= |content| then content[|invoker|..] else ""
  }

  class Command {
    /** The wrapped handler (`self.function`). */
    const fn: Handler
    const prefix: string
    /** Set at construction and never changed by the source. */
    const usesNonPositional: bool
    const params: seq<Slot>
    const length: nat

    constructor (fn: Handler, prefix: string, compiled: Signature)
      ensures this.fn == fn && this.prefix == prefix
      ensures params == compiled.params && length == compiled.length
      ensures !usesNonPositional
    {
      this.fn := fn;
      usesNonPositional := false;
      params := compiled.params;
      length := compiled.length;
      this.prefix := prefix;
    }

    /** The text `__call__` removes: the command's prefix, the handler's own name and a space. */
    function Invoker(): (invoker: string)
      ensures |invoker| == |prefix| + |fn.name| + 1 && invoker[|invoker| - 1] == ' '
      ensures prefix <= invoker && invoker[|prefix|..|invoker| - 1] == fn.name
    {
      prefix + fn.name + " "
    }

    /** `__call__`: strip the invoker from the context's content, then await the handler once. */
    method Call(ctx: MessageContext, log: CallLog)
      modifies ctx, log
      ensures ctx.content == Strip(old(ctx.content), Invoker())
      ensures log.calls == old(log.calls) + [Invoked(fn, WrappedContext(ctx.author, ctx.content, ctx.kind))]
    {
      ctx.content := Strip(ctx.content, Invoker());
      log.calls := log.calls + [Invoked(fn, WrappedContext(ctx.author, ctx.content, ctx.kind))];
    }
  }

  /**
   * `Command(fn, prefix)`: compiles the handler's parameters and raises
   * InvalidParameters for an empty signature.
   */
  method NewCommand(fn: Handler, prefix: string) returns (r: Result<Command>)
    ensures r.Err? <==> fn.declared == [""]
    ensures r.Err? ==> r.error == InvalidParameters
    ensures r.Ok? ==> fresh(r.value) && r.value.fn == fn && r.value.prefix == prefix
    ensures r.Ok? ==> Compile(fn.declared) == Ok(Signature(r.value.params, r.value.length))
    ensures r.Ok? ==> !r.value.usesNonPositional
  {
    var compiled := ParseParams(fn.declared);
    match compiled
    case Err(e) =>
      return Err(e);
    case Ok(sig) =>
      var c := new Command(fn, prefix, sig);
      return Ok(c);
  }

  // ---------------------------------------------------------------------------
  // Properties of the compiled calling convention.

  /** Only the empty signature is rejected, and with InvalidParameters. */
  lemma CompileRejectsOnlyEmpty(declared: ParamList)
    ensures Compile(declared).Err? <==> declared == [""]
    ensures Compile(declared).Err? ==> Compile(declared).error == InvalidParameters
  {
  }

  /** Entries are replaced in place: the length is kept and the first entry is the context. */
  lemma CompileKeepsShape(declared: ParamList)
    requires declared != [""]
    ensures |Compile(declared).value.params| == |declared|
    ensures Compile(declared).value.params[0] == Bound(Parameter.Context)
  {
  }

  /** Every entry after the first and before the first separator is positional. */
  lemma CompilePositionalBeforeStar(declared: ParamList, i: nat)
    requires declared != [""]
    requires 1 <= i < |declared|
    requires forall j :: 1 <= j <= i ==> declared[j] != "*"
    ensures Compile(declared).value.params[i] == Bound(Parameter.Positional)
  {
  }

  /**
   * At the first separator: the separator stays as it is; if the next entry is a
   * name, it is the non-positional entry, the scan stops, every later entry keeps
   * its raw name, and the separator is the one entry not counted in `length`.
   */
  lemma CompileAtFirstStar(declared: ParamList, k: nat)
    requires declared != [""]
    requires 1 <= k < |declared| && declared[k] == "*"
    requires forall j :: 1 <= j < k ==> declared[j] != "*"
    ensures Compile(declared).value.params[k] == Raw("*")
    ensures k + 1 == |declared| ==> Compile(declared).value.length == |declared| - 1
    ensures k + 1 < |declared| && declared[k + 1] != "*" ==>
      && Compile(declared).value.params[k + 1] == Bound(Parameter.NonPositional)
      && Compile(declared).value.length == |declared| - 1
      && forall j :: k + 1 < j < |declared| ==> Compile(declared).value.params[j] == Raw(declared[j])
  {
    var star := NextWhere(declared, 1, true);
    assert star == k;
    var remainder := NextWhere(declared, star, false);
    assert remainder > k;
    if k + 1 < |declared| && declared[k + 1] != "*" {
      assert remainder == k + 1;
    }
  }

  /** Without a separator every entry after the first is positional and all are counted. */
  lemma CompileWithoutStar(declared: ParamList)
    requires declared != [""]
    requires forall j :: 1 <= j < |declared| ==> declared[j] != "*"
    ensures Compile(declared).value.length == |declared|
    ensures forall i :: 1 <= i < |declared| ==> Compile(declared).value.params[i] == Bound(Parameter.Positional)
  {
  }

  /**
   * The convention is well formed: only the first entry is the context, there is at
   * most one non-positional entry, no positional entry comes after it, and it comes
   * straight after a separator.
   */
  lemma CompileConvention(declared: ParamList)
    requires declared != [""]
    ensures var p := Compile(declared).value.params;
      && (forall i :: 0 < i < |p| ==> p[i] != Bound(Parameter.Context))
      && (forall i, j :: 0 <= i < |p| && 0 <= j < |p| && p[i] == p[j] == Bound(Parameter.NonPositional) ==> i == j)
      && (forall i, j :: 0 <= i < j < |p| && p[i] == Bound(Parameter.NonPositional) ==> p[j] != Bound(Parameter.Positional))
      && (forall i :: 0 <= i < |p| && p[i] == Bound(Parameter.NonPositional) ==> 1 < i && p[i - 1] == Raw("*"))
  {
    var star := NextWhere(declared, 1, true);
    var remainder := NextWhere(declared, star, false);
    var p := Compile(declared).value.params;
    forall i | 0 <= i < |p| && p[i] == Bound(Parameter.NonPositional)
      ensures i == remainder && star < remainder && 1 < i && p[i - 1] == Raw("*")
    {
      assert star <= i && i == remainder;
      assert star < |declared| ==> declared[star] == "*";
      assert declared[i - 1] == "*";
    }
  }

  /** The shapes (ctx), (ctx, a, b), (ctx, a, *, b) and (ctx, *, b, c). */
  lemma CompileExamples()
    ensures Compile(["message"]) == Ok(Signature([Bound(Parameter.Context)], 1))
    ensures Compile(["ctx", "a", "b"])
         == Ok(Signature([Bound(Parameter.Context), Bound(Parameter.Positional), Bound(Parameter.Positional)], 3))
    ensures Compile(["ctx", "a", "*", "b"])
         == Ok(Signature([Bound(Parameter.Context), Bound(Parameter.Positional), Raw("*"), Bound(Parameter.NonPositional)], 3))
    ensures Compile(["ctx", "*", "b", "c"])
         == Ok(Signature([Bound(Parameter.Context), Raw("*"), Bound(Parameter.NonPositional), Raw("c")], 3))
  {
    var d1: ParamList := ["message"];
    CompileKeepsShape(d1);
    CompileWithoutStar(d1);
    assert Compile(d1).value.params == [Bound(Parameter.Context)];

    var d2: ParamList := ["ctx", "a", "b"];
    CompileKeepsShape(d2);
    CompileWithoutStar(d2);
    assert Compile(d2).value.params == [Bound(Parameter.Context), Bound(Parameter.Positional), Bound(Parameter.Positional)];

    var d3: ParamList := ["ctx", "a", "*", "b"];
    CompileKeepsShape(d3);
    CompilePositionalBeforeStar(d3, 1);
    CompileAtFirstStar(d3, 2);
    assert Compile(d3).value.params == [Bound(Parameter.Context), Bound(Parameter.Positional), Raw("*"), Bound(Parameter.NonPositional)];

    var d4: ParamList := ["ctx", "*", "b", "c"];
    CompileKeepsShape(d4);
    CompileAtFirstStar(d4, 1);
    assert Compile(d4).value.params == [Bound(Parameter.Context), Raw("*"), Bound(Parameter.NonPositional), Raw("c")];
  }

  /** Invoking on `prefix + name + " " + rest` leaves exactly `rest`. */
  lemma StripInvocation(invoker: string, rest: string)
    ensures Strip(invoker + rest, invoker) == rest
  {
  }
}
