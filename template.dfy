/**
 * The placeholder substitution engine of internal/template/template.go.
 *
 * ExecuteFunc walks a template, writes the literal spans to a sink and hands
 * each trimmed tag name to a TagFunc, adding up the counts both report.
 * Execute/ExecuteStd and ExecuteString/ExecuteStringStd plug in the standard
 * and the keep-unknown resolvers; Marks plugs in a resolver that only
 * records the names.
 */
module Template {
  import opened Wrappers
  import opened Strings
  import opened Scanner

  /** The errors the engine reports. */
  datatype Error =
    | ShortWrite                                  // the sink took fewer bytes than it was given
    | UnexpectedValue(tag: string, kind: string)  // a map value that is not []byte, string or TagFunc
    | CallbackError(code: nat)                    // an error value made by a caller's TagFunc

  /** What an io.Writer has accepted so far; a sink with a capacity refuses
      to hold more than that many bytes (a full disk, a closed pipe). */
  datatype Sink = Sink(data: string, capacity: Option<nat>)

  /** The result of one Write call. */
  datatype Written = Written(sink: Sink, n: int, err: Option<Error>)

  /** How many more bytes a sink with a capacity takes. */
  function Room(s: Sink): nat
    requires s.capacity.Some?
  {
    if |s.data| < s.capacity.value then s.capacity.value - |s.data| else 0
  }

  /** io.Writer.Write: the sink keeps the prefix of `p` that fits and reports
      how much that was; fewer bytes than `p` come with an error. */
  function WriteTo(s: Sink, p: string): Written
  {
    match s.capacity
    case None => Written(Sink(s.data + p, None), |p|, None)
    case Some(c) =>
      if |p| <= Room(s) then Written(Sink(s.data + p, s.capacity), |p|, None)
      else Written(Sink(s.data + Slice(p, 0, Room(s)), s.capacity), Room(s), Some(ShortWrite))
  }

  /** A write keeps a prefix of `p`, and reports its length; it falls short,
      with an error, exactly when `p` does not fit. */
  lemma WriteToCases(s: Sink, p: string)
    ensures var r := WriteTo(s, p);
      && r.sink.capacity == s.capacity
      && 0 <= r.n <= |p| && r.sink.data == s.data + p[..r.n]
      && (r.err.None? <==> r.n == |p|)
      && (r.err.None? <==> (s.capacity.None? || |p| <= Room(s)))
      && (r.err.Some? ==> r.err == Some(ShortWrite) && r.n == Room(s))
      && (r.err.Some? ==> r.sink.capacity.Some? && Room(r.sink) == 0)
  {
    if s.capacity.Some? && |p| > Room(s) {
      SliceIs(p, 0, Room(s));
    } else {
      assert p[..|p|] == p;
    }
  }

  /** The destination stream of an execution. */
  class Writer {
    var data: string
    const capacity: Option<nat>

    constructor (capacity: Option<nat>)
      ensures data == [] && this.capacity == capacity
    {
      data := [];
      this.capacity := capacity;
    }

    function State(): Sink
      reads this
    {
      Sink(data, capacity)
    }

    method Write(p: string) returns (n: int, err: Option<Error>)
      modifies this
      ensures Written(State(), n, err) == WriteTo(old(State()), p)
    {
      var r := WriteTo(State(), p);
      data, n, err := r.sink.data, r.n, r.err;
    }
  }

  /** The list `Marks` collects tag names into. */
  class TagList {
    var items: seq<string>

    constructor ()
      ensures items == []
    {
      items := [];
    }

    method Append(tag: string)
      modifies this
      ensures items == old(items) + [tag]
    {
      items := items + [tag];
    }
  }

  /** What a caller's TagFunc does with one tag: it writes `text` to the sink
      in one Write call; when that write fails it returns the sink's count
      and error, otherwise the `count` and `err` it chooses. */
  datatype Action = Action(text: string, count: int, err: Option<Error>)

  /** The TagFunc that writes `text` and returns what the write returned. */
  function Emit(text: string): Action
  {
    Action(text, |text|, None)
  }

  /** A value of the substitution map: nil, []byte, string, a TagFunc, or a
      value of any other Go type, named by `kind`. */
  datatype Value =
    | Nil
    | Bytes(bytes: string)
    | Str(str: string)
    | Func(call: string -> Action)
    | Other(kind: string)

  type Mapping = map<string, Value>

  /** The resolver an execution uses: a caller's TagFunc, the closure over
      stdTagFunc (Execute, ExecuteString), the closure over keepUnknownTagFunc
      (ExecuteStd, ExecuteStringStd) or the closure over fetchTagFunc that
      appends to `list` (Marks). */
  datatype TagFunc =
    | Callback(call: string -> Action)
    | Std(m: Mapping)
    | KeepUnknown(startTag: string, endTag: string, m: Mapping)
    | Fetch(list: TagList)
  {
    /** The objects a call of this resolver may change besides the sink. */
    function Repr(): set<object>
    {
      if Fetch? then {list} else {}
    }
  }

  /** Go's `m[tag]`: an absent key reads as nil. */
  function Lookup(m: Mapping, tag: string): Value
  {
    if tag in m then m[tag] else Nil
  }

  /** Calling a caller's TagFunc on the sink. */
  function Invoke(s: Sink, a: Action): Written
  {
    var w := WriteTo(s, a.text);
    if w.err.Some? then w else Written(w.sink, a.count, a.err)
  }

  /** The type switch shared by stdTagFunc and keepUnknownTagFunc
      (template.go:182-194 and 211-223). */
  function Substitute(s: Sink, tag: string, v: Value): Written
  {
    match v
    case Nil => Written(s, 0, None)
    case Bytes(b) => WriteTo(s, b)
    case Str(t) => WriteTo(s, t)
    case Func(call) => Invoke(s, call(tag))
    case Other(k) => Written(s, -1, Some(UnexpectedValue(tag, k)))
  }

  /** stdTagFunc: the value bound to the tag, resolved by Substitute. */
  function StdTag(s: Sink, tag: string, m: Mapping): Written
  {
    Substitute(s, tag, Lookup(m, tag))
  }

  /** stdTagFunc: a missing or nil value writes nothing, []byte and string
      values are written as they are, a TagFunc is called with the tag, and
      any other value is an error naming the tag. */
  lemma StdTagCases(s: Sink, tag: string, m: Mapping)
    ensures var r := StdTag(s, tag, m);
      && ((tag !in m || m[tag].Nil?) ==> r == Written(s, 0, None))
      && (tag in m && m[tag].Bytes? ==> r == WriteTo(s, m[tag].bytes))
      && (tag in m && m[tag].Str? ==> r == WriteTo(s, m[tag].str))
      && (tag in m && m[tag].Func? ==> r == Invoke(s, m[tag].call(tag)))
      && (tag in m && m[tag].Other? ==> r == Written(s, -1, Some(UnexpectedValue(tag, m[tag].kind))))
      && (r.err.Some? && r.err.value.UnexpectedValue? && r.err.value.tag != tag ==> tag in m && m[tag].Func?)
  {
  }

  /** keepUnknownTagFunc: a key missing from the map is written back as
      startTag, tag, endTag, in three writes; a present key, even one bound
      to nil, is resolved as stdTagFunc resolves it. */
  function KeepUnknownTag(s: Sink, startTag: string, endTag: string, tag: string, m: Mapping): Written
  {
    if tag !in m then
      var w1 := WriteTo(s, startTag);
      if w1.err.Some? then Written(w1.sink, 0, w1.err)
      else
        var w2 := WriteTo(w1.sink, tag);
        if w2.err.Some? then Written(w2.sink, 0, w2.err)
        else
          var w3 := WriteTo(w2.sink, endTag);
          if w3.err.Some? then Written(w3.sink, 0, w3.err)
          else Written(w3.sink, |startTag| + |tag| + |endTag|, None)
    else
      Substitute(s, tag, m[tag])
  }

  /** A present key is resolved as stdTagFunc does; a missing key is written
      back whole when it fits, and otherwise the write fails with a count of
      0 although part of it may have reached the sink. */
  lemma KeepUnknownTagCases(s: Sink, startTag: string, endTag: string, tag: string, m: Mapping)
    ensures var r := KeepUnknownTag(s, startTag, endTag, tag, m);
      && (tag in m ==> r == StdTag(s, tag, m))
      && (tag !in m ==> r.sink.capacity == s.capacity)
      && (tag !in m ==> (r.err.None? <==> (s.capacity.None? || |startTag| + |tag| + |endTag| <= Room(s))))
      && (tag !in m && r.err.None? ==>
            r == Written(Sink(s.data + startTag + tag + endTag, s.capacity), |startTag| + |tag| + |endTag|, None))
      && (tag !in m && r.err.Some? ==> r.n == 0 && r.err == Some(ShortWrite))
  {
  }

  /** The state an execution changes: the sink, and the list a Fetch
      resolver appends to. */
  datatype Env = Env(sink: Sink, marks: seq<string>)

  /** The final state, the byte count and the error of an execution. */
  datatype Outcome = Outcome(env: Env, count: int, err: Option<Error>)

  function WithSink(env: Env, w: Written): Outcome
  {
    Outcome(env.(sink := w.sink), w.n, w.err)
  }

  /** One call of the resolver `f` on `tag`. */
  function Resolve(f: TagFunc, env: Env, tag: string): Outcome
  {
    match f
    case Callback(call) => WithSink(env, Invoke(env.sink, call(tag)))
    case Std(m) => WithSink(env, StdTag(env.sink, tag, m))
    case KeepUnknown(a, b, m) => WithSink(env, KeepUnknownTag(env.sink, a, b, tag, m))
    case Fetch(_) => Outcome(env.(marks := env.marks + [tag]), 0, None)
  }

  /** A resolver as ExecuteFunc sees it: a function of the state and the
      tag name to the state after the call, its count and its error. */
  type Resolver = (Env, string) -> Outcome

  /** The resolver a TagFunc stands for. */
  function AsResolver(f: TagFunc): Resolver
  {
    (env: Env, tag: string) => Resolve(f, env, tag)
  }

  /** `o` with `nn` more bytes counted in front of it. */
  function After(nn: int, o: Outcome): Outcome
  {
    o.(count := nn + o.count)
  }

  /** One Write call of `p` to the sink of `env`. */
  function Put(env: Env, p: string): Outcome
  {
    WithSink(env, WriteTo(env.sink, p))
  }

  /** Counting in two steps is counting the sum. */
  lemma AfterAfter(x: int, y: int, o: Outcome)
    ensures After(x, After(y, o)) == After(x + y, o)
  {
  }

  /** The execution of a split, piece by piece: the reference semantics
      ExecuteFunc is measured against. Each literal is written; a failed
      write stops the run; each closed tag's trimmed name is resolved and a
      resolver error stops the run; an unclosed start tag is written with the
      error of that write dropped, followed by the rest of the template. The
      counts of all steps are added up. */
  function Run(sp: Split, startTag: string, endTag: string, f: Resolver, env: Env): Outcome
  {
    match sp
    case Tail(x) => Put(env, x)
    case Unclosed(x, y) =>
      var o := Put(env, x);
      if o.err.Some? then o
      else
        var d := Put(o.env, startTag);
        After(o.count, After(d.count, Put(d.env, y)))
    case Tagged(x, raw, next) =>
      var o := Put(env, x);
      if o.err.Some? then o
      else
        var r := f(o.env, TrimSpace(raw));
        if r.err.Some? then After(o.count, r)
        else After(o.count, After(r.count, Run(next, startTag, endTag, f, r.env)))
  }

  /** How one round of ExecuteFunc's loop ends: with a `return`, with a
      `break` that leaves the rest of the template to the final write, or
      with the next round. */
  datatype Round = Returned | Broke | Looped

  /** A round's ending, the state, count and error it leaves, and where the
      template's remainder starts. */
  datatype Turn = Turn(round: Round, out: Outcome, next: nat)

  /** One round of ExecuteFunc's loop (template.go:33-58) from position `pos`
      where a start tag follows: the literal before the start tag is
      written; a failed write returns; without an end tag the start tag is
      written and the loop is left; otherwise the resolver is called on the
      trimmed tag name, and its error returns. */
  function Step(t: string, pos: nat, startTag: string, endTag: string, f: Resolver, env: Env): Turn
    requires |startTag| + |endTag| > 0 && pos <= |t| && IndexFrom(t, startTag, pos) >= 0
  {
    var n := IndexFrom(t, startTag, pos);
    var o := Put(env, Slice(t, pos, n));
    if o.err.Some? then Turn(Returned, o, pos)
    else
      var k := IndexFrom(t, endTag, n + |startTag|);
      if k < 0 then
        var d := Put(o.env, startTag);
        Turn(Broke, Outcome(d.env, o.count + d.count, None), n + |startTag|)
      else
        var r := f(o.env, TrimSpace(Slice(t, n + |startTag|, k)));
        if r.err.Some? then Turn(Returned, After(o.count, r), pos)
        else Turn(Looped, After(o.count, r), k + |endTag|)
  }

  /** A round of the loop is a prefix of Run: a returning round is the whole
      run, a breaking round leaves the rest of the template to one write,
      and a looping round leaves the run of the rest of the template. */
  lemma RunStep(t: string, pos: nat, startTag: string, endTag: string, f: Resolver, env: Env)
    requires |startTag| + |endTag| > 0 && pos <= |t| && IndexFrom(t, startTag, pos) >= 0
    ensures var s := Step(t, pos, startTag, endTag, f, env);
      && s.next <= |t|
      && (s.round == Returned ==> Run(ScanFrom(t, pos, startTag, endTag), startTag, endTag, f, env) == s.out)
      && (s.round == Broke ==>
            Run(ScanFrom(t, pos, startTag, endTag), startTag, endTag, f, env)
            == After(s.out.count, Put(s.out.env, Slice(t, s.next, |t|))))
      && (s.round == Looped ==> pos < s.next)
      && (s.round == Looped ==>
            Run(ScanFrom(t, pos, startTag, endTag), startTag, endTag, f, env)
            == After(s.out.count, Run(ScanFrom(t, s.next, startTag, endTag), startTag, endTag, f, s.out.env)))
  {
    var n := IndexFrom(t, startTag, pos);
    if IndexFrom(t, endTag, n + |startTag|) < 0 {
      RunStepOpen(t, pos, startTag, endTag, f, env);
    } else {
      RunStepTag(t, pos, startTag, endTag, f, env);
    }
  }

  /** RunStep where the start tag is not closed. */
  lemma RunStepOpen(t: string, pos: nat, startTag: string, endTag: string, f: Resolver, env: Env)
    requires |startTag| + |endTag| > 0 && pos <= |t| && IndexFrom(t, startTag, pos) >= 0
    requires IndexFrom(t, endTag, IndexFrom(t, startTag, pos) + |startTag|) < 0
    ensures var s := Step(t, pos, startTag, endTag, f, env);
      && s.next <= |t|
      && s.round != Looped
      && (s.round == Returned ==> Run(ScanFrom(t, pos, startTag, endTag), startTag, endTag, f, env) == s.out)
      && (s.round == Broke ==>
            Run(ScanFrom(t, pos, startTag, endTag), startTag, endTag, f, env)
            == After(s.out.count, Put(s.out.env, Slice(t, s.next, |t|))))
  {
    ScanFromOpen(t, pos, IndexFrom(t, startTag, pos), startTag, endTag);
  }

  /** RunStep where the start tag is closed by an end tag. */
  lemma RunStepTag(t: string, pos: nat, startTag: string, endTag: string, f: Resolver, env: Env)
    requires |startTag| + |endTag| > 0 && pos <= |t| && IndexFrom(t, startTag, pos) >= 0
    requires IndexFrom(t, endTag, IndexFrom(t, startTag, pos) + |startTag|) >= 0
    ensures var s := Step(t, pos, startTag, endTag, f, env);
      && s.next <= |t|
      && s.round != Broke
      && (s.round == Returned ==> Run(ScanFrom(t, pos, startTag, endTag), startTag, endTag, f, env) == s.out)
      && (s.round == Looped ==> pos < s.next)
      && (s.round == Looped ==>
            Run(ScanFrom(t, pos, startTag, endTag), startTag, endTag, f, env)
            == After(s.out.count, Run(ScanFrom(t, s.next, startTag, endTag), startTag, endTag, f, s.out.env)))
  {
    var n := IndexFrom(t, startTag, pos);
    var k := IndexFrom(t, endTag, n + |startTag|);
    ScanFromTag(t, pos, n, k, startTag, endTag);
    var x, raw := Slice(t, pos, n), Slice(t, n + |startTag|, k);
    var o := Put(env, x);
    var r := f(o.env, TrimSpace(raw));
    if o.err.Some? || r.err.Some? {
      RunStepTagReturned(t, pos, startTag, endTag, f, env);
    } else {
      RunStepTagLooped(t, pos, startTag, endTag, f, env);
    }
  }

  /** RunStepTag where the literal's write or the resolver fails. */
  lemma RunStepTagReturned(t: string, pos: nat, startTag: string, endTag: string, f: Resolver, env: Env)
    requires |startTag| + |endTag| > 0 && pos <= |t| && IndexFrom(t, startTag, pos) >= 0
    requires IndexFrom(t, endTag, IndexFrom(t, startTag, pos) + |startTag|) >= 0
    requires Step(t, pos, startTag, endTag, f, env).round == Returned
    ensures Run(ScanFrom(t, pos, startTag, endTag), startTag, endTag, f, env) == Step(t, pos, startTag, endTag, f, env).out
  {
    var n := IndexFrom(t, startTag, pos);
    var k := IndexFrom(t, endTag, n + |startTag|);
    ScanFromTag(t, pos, n, k, startTag, endTag);
    RunTaggedSplit(Slice(t, pos, n), Slice(t, n + |startTag|, k), ScanFrom(t, k + |endTag|, startTag, endTag),
                   startTag, endTag, f, env);
  }

  /** RunStepTag where the literal and the tag are written. */
  lemma RunStepTagLooped(t: string, pos: nat, startTag: string, endTag: string, f: Resolver, env: Env)
    requires |startTag| + |endTag| > 0 && pos <= |t| && IndexFrom(t, startTag, pos) >= 0
    requires IndexFrom(t, endTag, IndexFrom(t, startTag, pos) + |startTag|) >= 0
    requires Step(t, pos, startTag, endTag, f, env).round == Looped
    ensures var s := Step(t, pos, startTag, endTag, f, env);
      Run(ScanFrom(t, pos, startTag, endTag), startTag, endTag, f, env)
      == After(s.out.count, Run(ScanFrom(t, s.next, startTag, endTag), startTag, endTag, f, s.out.env))
  {
    var n := IndexFrom(t, startTag, pos);
    var k := IndexFrom(t, endTag, n + |startTag|);
    ScanFromTag(t, pos, n, k, startTag, endTag);
    var x, raw, rest := Slice(t, pos, n), Slice(t, n + |startTag|, k), ScanFrom(t, k + |endTag|, startTag, endTag);
    var o := Put(env, x);
    var r := f(o.env, TrimSpace(raw));
    var s := Step(t, pos, startTag, endTag, f, env);
    assert s.next == k + |endTag| && s.out == After(o.count, r);
    calc {
      Run(ScanFrom(t, pos, startTag, endTag), startTag, endTag, f, env);
      Run(Tagged(x, raw, rest), startTag, endTag, f, env);
      { RunTaggedSplit(x, raw, rest, startTag, endTag, f, env); }
      After(s.out.count, Run(rest, startTag, endTag, f, r.env));
    }
  }

  /** Run on a closed tag, by the outcomes of the literal's write and of
      the resolver. */
  lemma RunTaggedSplit(x: string, raw: string, next: Split, startTag: string, endTag: string, f: Resolver, env: Env)
    ensures var o := Put(env, x);
      var r := f(o.env, TrimSpace(raw));
      && (o.err.Some? ==> Run(Tagged(x, raw, next), startTag, endTag, f, env) == o)
      && (o.err.None? && r.err.Some? ==> Run(Tagged(x, raw, next), startTag, endTag, f, env) == After(o.count, r))
      && (o.err.None? && r.err.None? ==>
            Run(Tagged(x, raw, next), startTag, endTag, f, env)
            == After(After(o.count, r).count, Run(next, startTag, endTag, f, r.env)))
  {
    var o := Put(env, x);
    var r := f(o.env, TrimSpace(raw));
    AfterAfter(o.count, r.count, Run(next, startTag, endTag, f, r.env));
  }

  /** Map values ExecuteFunc writes as they are: nil, []byte and string. */
  predicate PlainMap(m: Mapping)
  {
    forall tag :: tag in m ==> m[tag].Nil? || m[tag].Bytes? || m[tag].Str?
  }

  /** Resolvers that fail only when the sink does: a caller's TagFunc that
      writes its text and returns what the write returned, stdTagFunc and
      keepUnknownTagFunc over a plain map, and fetchTagFunc. */
  ghost predicate Plain(f: TagFunc)
  {
    match f
    case Callback(call) => forall tag :: call(tag) == Emit(call(tag).text)
    case Std(m) => PlainMap(m)
    case KeepUnknown(_, _, m) => PlainMap(m)
    case Fetch(_) => true
  }

  /** The bytes a plain map value stands for. */
  function ValueText(v: Value): string
  {
    match v
    case Bytes(b) => b
    case Str(s) => s
    case _ => []
  }

  /** What a resolver writes for `tag` when nothing fails. */
  function Fill(f: TagFunc, tag: string): string
  {
    match f
    case Callback(call) => call(tag).text
    case Std(m) => ValueText(Lookup(m, tag))
    case KeepUnknown(a, b, m) => if tag in m then ValueText(m[tag]) else a + tag + b
    case Fetch(_) => []
  }

  /** The text an execution produces when nothing fails: the literals, each
      closed tag replaced by what the resolver writes for its trimmed name,
      and an unclosed start tag kept with the rest of the template. */
  function Expanded(sp: Split, startTag: string, f: TagFunc): string
  {
    match sp
    case Tail(x) => x
    case Unclosed(x, y) => x + startTag + y
    case Tagged(x, raw, next) => x + Fill(f, TrimSpace(raw)) + Expanded(next, startTag, f)
  }

  /** The names a resolver records: all tag names for fetchTagFunc. */
  function Marked(sp: Split, f: TagFunc): seq<string>
  {
    if f.Fetch? then Names(sp) else []
  }

  /** stdTagFunc over a plain map is one write of the value's bytes (none
      for a missing key or nil). */
  lemma ResolveStdPlain(m: Mapping, env: Env, tag: string)
    requires PlainMap(m)
    ensures Resolve(Std(m), env, tag) == Put(env, ValueText(Lookup(m, tag)))
  {
    if Lookup(m, tag).Nil? {
      assert env.sink.data + [] == env.sink.data;
    }
  }

  /** A plain resolver on a sink without a capacity writes what Fill says,
      counts exactly that, records the tag if it is fetchTagFunc, and does
      not fail. */
  lemma ResolvePlain(f: TagFunc, env: Env, tag: string)
    requires Plain(f) && env.sink.capacity == None
    ensures Resolve(f, env, tag)
         == Outcome(Env(Sink(env.sink.data + Fill(f, tag), None), env.marks + (if f.Fetch? then [tag] else [])),
                    |Fill(f, tag)|, None)
  {
    match f
    case Callback(call) =>
      assert call(tag) == Emit(call(tag).text);
    case Std(m) =>
      ResolveStdPlain(m, env, tag);
    case KeepUnknown(a, b, m) =>
      if tag !in m {
        assert env.sink.data + a + tag + b == env.sink.data + (a + tag + b);
      } else if m[tag].Nil? {
        assert env.sink.data + [] == env.sink.data;
      }
    case Fetch(_) =>
      assert env.sink.data + [] == env.sink.data;
  }

  /** With a sink that takes everything, a plain resolver's run writes the
      expanded text, counts its length, records the tag names when the
      resolver is fetchTagFunc, and does not fail. */
  lemma {:induction false} RunUnlimited(sp: Split, startTag: string, endTag: string, f: TagFunc, env: Env)
    requires Plain(f) && env.sink.capacity == None
    ensures Run(sp, startTag, endTag, AsResolver(f), env)
         == Outcome(Env(Sink(env.sink.data + Expanded(sp, startTag, f), None), env.marks + Marked(sp, f)),
                    |Expanded(sp, startTag, f)|, None)
  {
    match sp
    case Tail(x) =>
      assert env.marks + [] == env.marks;
    case Unclosed(x, y) =>
      assert env.sink.data + x + startTag + y == env.sink.data + (x + startTag + y);
      assert env.marks + [] == env.marks;
    case Tagged(x, raw, next) =>
      var o := Put(env, x);
      var tag := TrimSpace(raw);
      ResolvePlain(f, o.env, tag);
      var r := Resolve(f, o.env, tag);
      RunUnlimited(next, startTag, endTag, f, r.env);
      assert env.sink.data + x + Fill(f, tag) + Expanded(next, startTag, f)
          == env.sink.data + Expanded(sp, startTag, f);
      if f.Fetch? {
        assert env.marks + [tag] + Names(next) == env.marks + Names(sp);
      } else {
        assert env.marks + [] == env.marks;
      }
  }

  /** No start tag of the split is left unclosed. */
  predicate Closed(sp: Split)
  {
    match sp
    case Tail(_) => true
    case Unclosed(_, _) => false
    case Tagged(_, _, next) => Closed(next)
  }

  /** What a run with a plain stdTagFunc keeps: the sink's capacity and the
      recorded names. */
  predicate Keeps(o: Outcome, env: Env)
  {
    o.env.marks == env.marks && o.env.sink.capacity == env.sink.capacity
  }

  /** What a plain run promises of `o` when it should have written `full`
      after `env`: it extended the sink towards `full`, counted exactly the
      bytes it added, and fails only with a short write that lost bytes. */
  predicate Honest(o: Outcome, env: Env, full: string)
  {
    && Keeps(o, env)
    && env.sink.data <= o.env.sink.data <= full
    && o.count == |o.env.sink.data| - |env.sink.data|
    && (o.err.Some? ==> o.err == Some(ShortWrite) && |o.env.sink.data| < |full|)
  }

  /** One write is honest about `p`, and complete when it does not fail;
      after a failed write the sink is full. */
  lemma PutHonest(env: Env, p: string)
    ensures Honest(Put(env, p), env, env.sink.data + p)
    ensures Put(env, p).err.None? <==> Put(env, p).env.sink.data == env.sink.data + p
    ensures Put(env, p).err.Some? ==> env.sink.capacity.Some? && Room(Put(env, p).env.sink) == 0
  {
    WriteToCases(env.sink, p);
  }

  /** A prefix of `u` is a prefix of anything `u` starts. */
  lemma PrefixGrows(s: string, u: string, v: string)
    requires s <= u
    ensures s <= u + v
  {
    assert (u + v)[..|u|] == u;
  }

  /** A write to a full sink changes nothing, and fails unless it is empty. */
  lemma PutFull(env: Env, p: string)
    requires env.sink.capacity.Some? && Room(env.sink) == 0
    ensures Put(env, p).env == env && Put(env, p).count == 0
    ensures Put(env, p).err.Some? <==> |p| > 0
  {
    WriteToCases(env.sink, p);
    assert env.sink.data + p[..0] == env.sink.data;
  }

  /** The unclosed case of RunHonest. */
  lemma RunHonestUnclosed(x: string, y: string, startTag: string, endTag: string, m: Mapping, env: Env)
    requires PlainMap(m)
    ensures var o := Run(Unclosed(x, y), startTag, endTag, AsResolver(Std(m)), env);
      Honest(o, env, env.sink.data + (x + startTag + y))
  {
    var full := env.sink.data + (x + startTag + y);
    assert full == env.sink.data + x + startTag + y;
    var o1 := Put(env, x);
    PutHonest(env, x);
    if o1.err.Some? {
      PrefixGrows(o1.env.sink.data, env.sink.data + x, startTag + y);
      assert env.sink.data + x + (startTag + y) == full;
    } else {
      var d := Put(o1.env, startTag);
      PutHonest(o1.env, startTag);
      var o3 := Put(d.env, y);
      if d.err.Some? {
        PutFull(d.env, y);
        PrefixGrows(d.env.sink.data, o1.env.sink.data + startTag, y);
      } else {
        PutHonest(d.env, y);
      }
    }
  }

  /** Honesty about a text is honesty about any longer text. */
  lemma HonestGrows(o: Outcome, env: Env, full: string, more: string)
    requires Honest(o, env, full)
    ensures Honest(o, env, full + more)
  {
    PrefixGrows(o.env.sink.data, full, more);
  }

  /** A complete write of `p` followed by an outcome honest about `tail`
      is honest about `p` and `tail`. */
  lemma HonestChain(env: Env, p: string, q: Outcome, tail: string)
    requires Put(env, p).err.None?
    requires Honest(q, Put(env, p).env, Put(env, p).env.sink.data + tail)
    ensures Honest(After(Put(env, p).count, q), env, env.sink.data + (p + tail))
  {
    PutHonest(env, p);
    assert env.sink.data + p + tail == env.sink.data + (p + tail);
  }

  /** Partial failure: a run with stdTagFunc over a plain map writes a
      prefix of the expanded text and counts exactly the bytes it wrote; it
      fails only with a short write that lost bytes, and a run without an
      unclosed start tag that does not fail has written everything. */
  lemma {:induction false} RunHonest(sp: Split, startTag: string, endTag: string, m: Mapping, env: Env)
    requires PlainMap(m)
    ensures Honest(Run(sp, startTag, endTag, AsResolver(Std(m)), env), env, env.sink.data + Expanded(sp, startTag, Std(m)))
  {
    match sp
    case Tail(x) =>
      PutHonest(env, x);
    case Unclosed(x, y) =>
      RunHonestUnclosed(x, y, startTag, endTag, m, env);
    case Tagged(x, raw, next) =>
      var v := ValueText(Lookup(m, TrimSpace(raw)));
      var rest := Expanded(next, startTag, Std(m));
      assert Expanded(sp, startTag, Std(m)) == x + (v + rest);
      var o1 := Put(env, x);
      PutHonest(env, x);
      ResolveStdPlain(m, o1.env, TrimSpace(raw));
      var r := Put(o1.env, v);
      if o1.err.Some? {
        HonestGrows(o1, env, env.sink.data + x, v + rest);
        assert env.sink.data + x + (v + rest) == env.sink.data + (x + (v + rest));
      } else if r.err.Some? {
        PutHonest(o1.env, v);
        HonestGrows(r, o1.env, o1.env.sink.data + v, rest);
        assert o1.env.sink.data + v + rest == o1.env.sink.data + (v + rest);
        HonestChain(env, x, r, v + rest);
      } else {
        var q := Run(next, startTag, endTag, AsResolver(Std(m)), r.env);
        RunHonest(next, startTag, endTag, m, r.env);
        HonestChain(o1.env, v, q, rest);
        HonestChain(env, x, After(r.count, q), v + rest);
      }
  }

  /** A complete write of `p` followed by an outcome that wrote `tail`
      has written `p` and `tail`. */
  lemma CompleteChain(env: Env, p: string, q: Outcome, tail: string)
    requires Put(env, p).err.None?
    requires q.env.sink.data == Put(env, p).env.sink.data + tail
    ensures After(Put(env, p).count, q).env.sink.data == env.sink.data + (p + tail)
  {
    PutHonest(env, p);
    assert env.sink.data + p + tail == env.sink.data + (p + tail);
  }

  /** A run with stdTagFunc over a plain map that ends without an error
      and meets no unclosed start tag has written the whole expanded text. */
  lemma RunComplete(sp: Split, startTag: string, endTag: string, m: Mapping, env: Env)
    requires PlainMap(m) && Closed(sp) && Run(sp, startTag, endTag, AsResolver(Std(m)), env).err.None?
    ensures Run(sp, startTag, endTag, AsResolver(Std(m)), env).env.sink.data
         == env.sink.data + Expanded(sp, startTag, Std(m))
  {
    forall e: Env, tag: string
      ensures AsResolver(Std(m))(e, tag) == Put(e, ValueText(Lookup(m, tag)))
    {
      ResolveStdPlain(m, e, tag);
    }
    RunCompleteBy(sp, startTag, endTag, AsResolver(Std(m)), m, env);
  }

  /** RunComplete for any resolver that writes the map's value as one
      write. */
  lemma {:induction false} RunCompleteBy(sp: Split, startTag: string, endTag: string, f: Resolver, m: Mapping, env: Env)
    requires forall e: Env, tag: string :: f(e, tag) == Put(e, ValueText(Lookup(m, tag)))
    requires Closed(sp) && Run(sp, startTag, endTag, f, env).err.None?
    ensures Run(sp, startTag, endTag, f, env).env.sink.data == env.sink.data + Expanded(sp, startTag, Std(m))
  {
    match sp
    case Tail(x) =>
      PutHonest(env, x);
    case Tagged(x, raw, next) =>
      var v := ValueText(Lookup(m, TrimSpace(raw)));
      var o1 := Put(env, x);
      var r := Put(o1.env, v);
      assert f(o1.env, TrimSpace(raw)) == r;
      var q := Run(next, startTag, endTag, f, r.env);
      AfterAfter(o1.count, r.count, q);
      RunCompleteBy(next, startTag, endTag, f, m, r.env);
      CompleteChain(o1.env, v, q, Expanded(next, startTag, Std(m)));
      CompleteChain(env, x, After(r.count, q), v + Expanded(next, startTag, Std(m)));
  }

  /** The error of writing an unclosed start tag is dropped: when the sink
      is already full and the start tag ends the template, the execution
      reports no error although the start tag was not written. */
  lemma UnclosedErrorDropped(f: Resolver)
    ensures Scan("{", "{", "}") == Unclosed("", "")
    ensures var env := Env(Sink("", Some(0)), []);
      Run(Scan("{", "{", "}"), "{", "}", f, env) == Outcome(env, 0, None)
  {
    ScanUnclosed("", "", "{", "}");
    assert "" + "{" + "" == "{";
    PutFull(Env(Sink("", Some(0)), []), "");
    PutFull(Env(Sink("", Some(0)), []), "{");
  }

  /** Every closed tag of the split has a name without surrounding space
      that the map does not hold. */
  predicate Kept(sp: Split, m: Mapping)
  {
    match sp
    case Tail(_) => true
    case Unclosed(_, _) => true
    case Tagged(_, raw, next) => TrimSpace(raw) == raw && raw !in m && Kept(next, m)
  }

  /** keepUnknownTagFunc puts back every tag it does not know: when no tag
      is known and none has surrounding space, the expansion is the template
      text itself. */
  lemma {:induction false} ExpandedKept(sp: Split, startTag: string, endTag: string, m: Mapping)
    requires Kept(sp, m)
    ensures Expanded(sp, startTag, KeepUnknown(startTag, endTag, m)) == Text(sp, startTag, endTag)
  {
    match sp
    case Tail(_) =>
    case Unclosed(_, _) =>
    case Tagged(x, raw, next) =>
      ExpandedKept(next, startTag, endTag, m);
      assert x + (startTag + raw + endTag) + Text(next, startTag, endTag)
          == x + startTag + (raw + endTag + Text(next, startTag, endTag));
  }

  /** Preserve-unknown identity: with a sink that takes everything,
      ExecuteStd over a plain map that knows none of the template's tags,
      none of which has surrounding space, copies the template unchanged. */
  lemma KeepUnknownIdentity(t: string, startTag: string, endTag: string, m: Mapping, env: Env)
    requires |startTag| + |endTag| > 0 && PlainMap(m) && env.sink.capacity == None
    requires Kept(Scan(t, startTag, endTag), m)
    ensures Run(Scan(t, startTag, endTag), startTag, endTag, AsResolver(KeepUnknown(startTag, endTag, m)), env)
         == Outcome(Env(Sink(env.sink.data + t, None), env.marks), |t|, None)
  {
    RunUnlimited(Scan(t, startTag, endTag), startTag, endTag, KeepUnknown(startTag, endTag, m), env);
    ExpandedKept(Scan(t, startTag, endTag), startTag, endTag, m);
    ScanSplits(t, startTag, endTag);
    assert env.marks + [] == env.marks;
  }

  /** No-tag identity: a template without a start tag is written as it is
      in one write, whatever the resolver. */
  lemma RunNoTag(t: string, startTag: string, endTag: string, f: Resolver, env: Env)
    requires |startTag| + |endTag| > 0 && IndexOf(t, startTag) < 0
    ensures Scan(t, startTag, endTag) == Tail(t)
    ensures Run(Scan(t, startTag, endTag), startTag, endTag, f, env) == Put(env, t)
  {
    ScanFromEnd(t, 0, startTag, endTag);
    SliceIs(t, 0, |t|);
    assert t[0..|t|] == t;
  }

  /** A write to a sink without a capacity appends all of `p`. */
  lemma PutUnlimited(env: Env, p: string)
    requires env.sink.capacity == None
    ensures Put(env, p) == Outcome(Env(Sink(env.sink.data + p, None), env.marks), |p|, None)
  {
  }

  /** Unclosed tag: a start tag left unclosed is written as it is, with the
      rest of the template after it, whatever the resolver; with a sink
      that takes everything, the text comes out unchanged. */
  lemma RunUnclosedCopied(x: string, y: string, startTag: string, endTag: string, f: Resolver, env: Env)
    requires env.sink.capacity == None
    ensures Run(Unclosed(x, y), startTag, endTag, f, env)
         == Outcome(Env(Sink(env.sink.data + (x + startTag + y), None), env.marks), |x + startTag + y|, None)
  {
    PutUnlimited(env, x);
    PutUnlimited(Put(env, x).env, startTag);
    PutUnlimited(Put(Put(env, x).env, startTag).env, y);
    assert env.sink.data + x + startTag + y == env.sink.data + (x + startTag + y);
  }

  /** A caller's TagFunc that succeeds, on a sink that takes everything:
      the literal and the TagFunc's text are written, the count grows by
      the literal's length and the count the TagFunc returns, and the run
      goes on with the rest of the template. */
  lemma CallbackStep(x: string, raw: string, next: Split, startTag: string, endTag: string,
                     call: string -> Action, env: Env)
    requires env.sink.capacity == None && call(TrimSpace(raw)).err.None?
    ensures var a := call(TrimSpace(raw));
      Run(Tagged(x, raw, next), startTag, endTag, AsResolver(Callback(call)), env)
      == After(|x| + a.count, Run(next, startTag, endTag, AsResolver(Callback(call)),
                                  Env(Sink(env.sink.data + x + a.text, None), env.marks)))
  {
    var o := Put(env, x);
    var r := Resolve(Callback(call), o.env, TrimSpace(raw));
    AfterAfter(o.count, r.count, Run(next, startTag, endTag, AsResolver(Callback(call)), r.env));
  }

  /** A TagFunc's error stops the run, on a sink that takes everything:
      whether it is the caller's TagFunc or one bound to the tag in the
      map, the run ends with exactly that error, after the literal and the
      TagFunc's text, counting both; the string variants then return an
      empty string. */
  lemma CallbackErrorStops(x: string, raw: string, next: Split, startTag: string, endTag: string,
                           f: TagFunc, a: Action, env: Env)
    requires env.sink.capacity == None && a.err.Some?
    requires || (f.Callback? && f.call(TrimSpace(raw)) == a)
             || ((f.Std? || f.KeepUnknown?) && TrimSpace(raw) in f.m && f.m[TrimSpace(raw)].Func?
                 && f.m[TrimSpace(raw)].call(TrimSpace(raw)) == a)
    ensures var o := Run(Tagged(x, raw, next), startTag, endTag, AsResolver(f), env);
      && o == Outcome(Env(Sink(env.sink.data + x + a.text, None), env.marks), |x| + a.count, a.err)
      && Result(o) == []
  {
  }

  /** A map value that is neither []byte, string nor a TagFunc stops the
      run once the literal before its tag is written: the count falls by
      one and the error names the tag and the value's type; the string
      variants then return an empty string. */
  lemma UnexpectedValueStops(x: string, raw: string, next: Split, startTag: string, endTag: string,
                             f: TagFunc, env: Env)
    requires Put(env, x).err.None?
    requires (f.Std? || f.KeepUnknown?) && TrimSpace(raw) in f.m && f.m[TrimSpace(raw)].Other?
    ensures var tag := TrimSpace(raw);
      var o := Run(Tagged(x, raw, next), startTag, endTag, AsResolver(f), env);
      && o == Outcome(Env(Sink(env.sink.data + x, env.sink.capacity), env.marks), |x| - 1,
                      Some(UnexpectedValue(tag, f.m[tag].kind)))
      && Result(o) == []
  {
    PutHonest(env, x);
    WriteToCases(env.sink, x);
  }

  /** The state a method sees: the writer's sink and the Fetch list. */
  function EnvOf(w: Writer, f: TagFunc): Env
    reads w, f.Repr()
  {
    Env(w.State(), Recorded(f))
  }

  /** The names a Fetch resolver has recorded; other resolvers record none. */
  function Recorded(f: TagFunc): seq<string>
    reads f.Repr()
  {
    if f.Fetch? then f.list.items else []
  }

  /** One Write call, seen as a step of an execution with resolver `f`. */
  method WriteText(w: Writer, f: TagFunc, p: string) returns (n: int, err: Option<Error>)
    modifies w
    ensures Outcome(EnvOf(w, f), n, err) == Put(old(EnvOf(w, f)), p)
  {
    n, err := w.Write(p);
  }

  /** A caller's TagFunc acting on the writer. */
  method InvokeOn(w: Writer, a: Action) returns (n: int, err: Option<Error>)
    modifies w
    ensures Written(w.State(), n, err) == Invoke(old(w.State()), a)
  {
    n, err := w.Write(a.text);
    if err.None? {
      n, err := a.count, a.err;
    }
  }

  /** stdTagFunc (template.go:180-195). */
  method StdTagFunc(w: Writer, tag: string, m: Mapping) returns (n: int, err: Option<Error>)
    modifies w
    ensures Written(w.State(), n, err) == StdTag(old(w.State()), tag, m)
  {
    var v := Lookup(m, tag);
    match v
    case Nil =>
      n, err := 0, None;
    case Bytes(b) =>
      n, err := w.Write(b);
    case Str(t) =>
      n, err := w.Write(t);
    case Func(call) =>
      n, err := InvokeOn(w, call(tag));
    case Other(k) =>
      n, err := -1, Some(UnexpectedValue(tag, k));
  }

  /** keepUnknownTagFunc (template.go:197-224). */
  method KeepUnknownTagFunc(w: Writer, startTag: string, endTag: string, tag: string, m: Mapping)
    returns (n: int, err: Option<Error>)
    modifies w
    ensures Written(w.State(), n, err) == KeepUnknownTag(old(w.State()), startTag, endTag, tag, m)
  {
    if tag !in m {
      n, err := w.Write(startTag);
      if err.Some? {
        return 0, err;
      }
      n, err := w.Write(tag);
      if err.Some? {
        return 0, err;
      }
      n, err := w.Write(endTag);
      if err.Some? {
        return 0, err;
      }
      return |startTag| + |tag| + |endTag|, None;
    }
    n, err := StdTagFunc(w, tag, m);
  }

  /** fetchTagFunc (template.go:227-230). */
  method FetchTagFunc(tag: string, list: TagList) returns (n: int, err: Option<Error>)
    modifies list
    ensures list.items == old(list.items) + [tag] && n == 0 && err == None
  {
    list.Append(tag);
    n, err := 0, None;
  }

  /** One call of the resolver on the writer. */
  method CallTagFunc(w: Writer, f: TagFunc, tag: string) returns (n: int, err: Option<Error>)
    modifies w, f.Repr()
    ensures Outcome(EnvOf(w, f), n, err) == Resolve(f, old(EnvOf(w, f)), tag)
  {
    match f
    case Callback(call) =>
      n, err := InvokeOn(w, call(tag));
    case Std(m) =>
      n, err := StdTagFunc(w, tag, m);
    case KeepUnknown(a, b, m) =>
      n, err := KeepUnknownTagFunc(w, a, b, tag, m);
    case Fetch(list) =>
      n, err := FetchTagFunc(tag, list);
  }

  /** One round of ExecuteFunc's loop once a start tag was found at `n`
      (template.go:36-58). */
  method ExecuteSpan(t: string, pos: nat, n: nat, startTag: string, endTag: string, w: Writer, f: TagFunc)
    returns (round: Round, count: int, err: Option<Error>, next: nat)
    requires |startTag| + |endTag| > 0 && pos <= |t| && n == IndexFrom(t, startTag, pos)
    modifies w, f.Repr()
    ensures Turn(round, Outcome(EnvOf(w, f), count, err), next)
         == Step(t, pos, startTag, endTag, AsResolver(f), old(EnvOf(w, f)))
  {
    count, err := WriteText(w, f, Slice(t, pos, n));
    if err.Some? {
      return Returned, count, err, pos;
    }
    var k := IndexFrom(t, endTag, n + |startTag|);
    if k < 0 {
      // no end tag: the start tag is written as it is and its error dropped
      var n1: int;
      var dropped: Option<Error>;
      n1, dropped := WriteText(w, f, startTag);
      return Broke, count + n1, None, n + |startTag|;
    }
    var nt: int;
    nt, err := CallTagFunc(w, f, TrimSpace(Slice(t, n + |startTag|, k)));
    if err.Some? {
      return Returned, count + nt, err, pos;
    }
    return Looped, count + nt, None, k + |endTag|;
  }

  /** ExecuteFunc (template.go:24-64): writes the template to `w`, calling
      `f` on each tag, and returns the byte count and the first error: the
      run of the template's scan. */
  method ExecuteFunc(template: string, startTag: string, endTag: string, w: Writer, f: TagFunc)
    returns (nn: int, err: Option<Error>)
    requires |startTag| + |endTag| > 0
    modifies w, f.Repr()
    ensures Outcome(EnvOf(w, f), nn, err)
         == Run(Scan(template, startTag, endTag), startTag, endTag, AsResolver(f), old(EnvOf(w, f)))
  {
    ghost var goal := Run(ScanFrom(template, 0, startTag, endTag), startTag, endTag, AsResolver(f), EnvOf(w, f));
    var pos := 0;
    nn := 0;
    var ni: int;
    while true
      invariant pos <= |template|
      invariant After(nn, Run(ScanFrom(template, pos, startTag, endTag), startTag, endTag, AsResolver(f), EnvOf(w, f))) == goal
      decreases |template| - pos
    {
      var n := IndexFrom(template, startTag, pos);
      if n < 0 {
        ScanFromEnd(template, pos, startTag, endTag);
        break;
      }
      ghost var env := EnvOf(w, f);
      RunStep(template, pos, startTag, endTag, AsResolver(f), env);
      var round, next;
      round, ni, err, next := ExecuteSpan(template, pos, n, startTag, endTag, w, f);
      AfterAfter(nn, ni, Run(ScanFrom(template, next, startTag, endTag), startTag, endTag, AsResolver(f), EnvOf(w, f)));
      AfterAfter(nn, ni, Put(EnvOf(w, f), Slice(template, next, |template|)));
      nn := nn + ni;
      if round == Returned {
        return;
      }
      pos := next;
      if round == Broke {
        break;
      }
    }
    ni, err := WriteText(w, f, Slice(template, pos, |template|));
    nn := nn + ni;
  }

  /** Marks: the names of all closed tags, in order, collected by running
      the template through fetchTagFunc against a sink that takes
      everything (io.Discard); it never fails. */
  method Marks(template: string, startTag: string, endTag: string) returns (list: seq<string>, err: Option<Error>)
    requires |startTag| + |endTag| > 0
    ensures list == Names(Scan(template, startTag, endTag)) && err == None
  {
    var tags := new TagList();
    var discard := new Writer(None);
    ghost var env := EnvOf(discard, Fetch(tags));
    var n: int;
    n, err := ExecuteFunc(template, startTag, endTag, discard, Fetch(tags));
    RunUnlimited(Scan(template, startTag, endTag), startTag, endTag, Fetch(tags), env);
    list := tags.items;
  }

  /** Execute: ExecuteFunc with stdTagFunc over `m`. With a map of plain
      values the count is exactly what reached `w` and the only error is a
      short write; with a sink that takes everything, `w` receives the
      expanded template and no error. */
  method Execute(template: string, startTag: string, endTag: string, w: Writer, m: Mapping)
    returns (nn: int, err: Option<Error>)
    requires |startTag| + |endTag| > 0
    modifies w
    ensures Outcome(Env(w.State(), []), nn, err)
         == Run(Scan(template, startTag, endTag), startTag, endTag, AsResolver(Std(m)), Env(old(w.State()), []))
    ensures PlainMap(m) ==>
      && old(w.data) <= w.data
      && nn == |w.data| - |old(w.data)|
      && (err.Some? ==> err == Some(ShortWrite))
    ensures PlainMap(m) && w.capacity == None ==>
      w.data == old(w.data) + Expanded(Scan(template, startTag, endTag), startTag, Std(m)) && err == None
  {
    ghost var env := EnvOf(w, Std(m));
    nn, err := ExecuteFunc(template, startTag, endTag, w, Std(m));
    if PlainMap(m) {
      RunHonest(Scan(template, startTag, endTag), startTag, endTag, m, env);
      if w.capacity == None {
        RunUnlimited(Scan(template, startTag, endTag), startTag, endTag, Std(m), env);
      }
    }
  }

  /** ExecuteStd: ExecuteFunc with keepUnknownTagFunc, which writes back
      the tags `m` does not hold; with plain values and a sink that takes
      everything, a template whose tags are all unknown and untrimmed comes
      out unchanged. */
  method ExecuteStd(template: string, startTag: string, endTag: string, w: Writer, m: Mapping)
    returns (nn: int, err: Option<Error>)
    requires |startTag| + |endTag| > 0
    modifies w
    ensures Outcome(Env(w.State(), []), nn, err)
         == Run(Scan(template, startTag, endTag), startTag, endTag, AsResolver(KeepUnknown(startTag, endTag, m)),
                Env(old(w.State()), []))
    ensures PlainMap(m) && w.capacity == None ==>
      w.data == old(w.data) + Expanded(Scan(template, startTag, endTag), startTag, KeepUnknown(startTag, endTag, m))
      && err == None
    ensures PlainMap(m) && w.capacity == None && Kept(Scan(template, startTag, endTag), m) ==>
      w.data == old(w.data) + template && nn == |template|
  {
    ghost var env := EnvOf(w, KeepUnknown(startTag, endTag, m));
    nn, err := ExecuteFunc(template, startTag, endTag, w, KeepUnknown(startTag, endTag, m));
    if PlainMap(m) && w.capacity == None {
      RunUnlimited(Scan(template, startTag, endTag), startTag, endTag, KeepUnknown(startTag, endTag, m), env);
      if Kept(Scan(template, startTag, endTag), m) {
        KeepUnknownIdentity(template, startTag, endTag, m, env);
      }
    }
  }

  /** What ExecuteFuncString returns for a run: the buffer's bytes, or
      nothing with the error. */
  function Result(o: Outcome): string
  {
    if o.err.None? then o.env.sink.data else []
  }

  /** ExecuteFuncString: a template without a start tag comes back as it
      is; otherwise it is executed into a fresh buffer, and the buffer's
      contents are returned, or an empty string with the error. */
  method ExecuteFuncString(template: string, startTag: string, endTag: string, f: TagFunc)
    returns (s: string, err: Option<Error>)
    requires |startTag| + |endTag| > 0
    modifies f.Repr()
    ensures var o := Run(Scan(template, startTag, endTag), startTag, endTag, AsResolver(f),
                         Env(Sink([], None), old(Recorded(f))));
      s == Result(o) && err == o.err && Recorded(f) == o.env.marks
    ensures IndexOf(template, startTag) < 0 ==> s == template && err == None
    ensures err.Some? ==> s == []
  {
    if IndexOf(template, startTag) < 0 {
      RunNoTag(template, startTag, endTag, AsResolver(f), Env(Sink([], None), Recorded(f)));
      PutUnlimited(Env(Sink([], None), Recorded(f)), template);
      return template, None;
    }
    var bb := new Writer(None);
    var n: int;
    n, err := ExecuteFunc(template, startTag, endTag, bb, f);
    if err.Some? {
      return [], err;
    }
    s := bb.data;
  }

  /** ExecuteString: ExecuteFuncString with stdTagFunc over `m`; with plain
      values it cannot fail and returns the expanded template. */
  method ExecuteString(template: string, startTag: string, endTag: string, m: Mapping)
    returns (s: string, err: Option<Error>)
    requires |startTag| + |endTag| > 0
    ensures var o := Run(Scan(template, startTag, endTag), startTag, endTag, AsResolver(Std(m)), Env(Sink([], None), []));
      s == Result(o) && err == o.err
    ensures err.Some? ==> s == []
    ensures IndexOf(template, startTag) < 0 ==> s == template && err == None
    ensures PlainMap(m) ==> s == Expanded(Scan(template, startTag, endTag), startTag, Std(m)) && err == None
  {
    s, err := ExecuteFuncString(template, startTag, endTag, Std(m));
    if PlainMap(m) {
      RunUnlimited(Scan(template, startTag, endTag), startTag, endTag, Std(m), Env(Sink([], None), []));
    }
  }

  /** ExecuteStringStd: ExecuteFuncString with keepUnknownTagFunc; with
      plain values it cannot fail, and a template whose tags are all
      unknown and untrimmed comes back unchanged. */
  method ExecuteStringStd(template: string, startTag: string, endTag: string, m: Mapping)
    returns (s: string, err: Option<Error>)
    requires |startTag| + |endTag| > 0
    ensures var o := Run(Scan(template, startTag, endTag), startTag, endTag,
                         AsResolver(KeepUnknown(startTag, endTag, m)), Env(Sink([], None), []));
      s == Result(o) && err == o.err
    ensures err.Some? ==> s == []
    ensures IndexOf(template, startTag) < 0 ==> s == template && err == None
    ensures PlainMap(m) ==>
      s == Expanded(Scan(template, startTag, endTag), startTag, KeepUnknown(startTag, endTag, m)) && err == None
    ensures PlainMap(m) && Kept(Scan(template, startTag, endTag), m) ==> s == template
  {
    s, err := ExecuteFuncString(template, startTag, endTag, KeepUnknown(startTag, endTag, m));
    if PlainMap(m) {
      var env := Env(Sink([], None), []);
      RunUnlimited(Scan(template, startTag, endTag), startTag, endTag, KeepUnknown(startTag, endTag, m), env);
      if Kept(Scan(template, startTag, endTag), m) {
        KeepUnknownIdentity(template, startTag, endTag, m, env);
      }
    }
  }
}
