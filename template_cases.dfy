/** Concrete cases of the template engine stated on the model: an example
    of Marks and the cases of the repository's template tests. Each
    template is written as the split it scans into, and its text is
    `Text` of that split: the pieces glued back with their delimiters. */
module TemplateCases {
  import opened Wrappers
  import opened Strings
  import opened Scanner
  import opened Template

  /** A tag whose first character does not occur in `s` is first found
      right after `s`. */
  lemma FirstAtEndOf(s: string, p: string)
    requires p != [] && p[0] !in s
    ensures FirstAtEnd(s, p)
  {
    forall j | 0 <= j < |s| ensures !MatchAt(s + p, p, j) {
      assert (s + p)[j + 0] == s[j];
      assert s[j] in s;
    }
  }

  /** A text in which the first character of `p` does not occur holds no
      `p`. */
  lemma FreeOf(s: string, p: string)
    requires p != [] && p[0] !in s
    ensures Free(s, p)
  {
    forall j | 0 <= j <= |s| ensures !MatchAt(s, p, j) {
      if j < |s| {
        assert s[j] in s;
        assert s[j + 0] != p[0];
      }
    }
  }

  // ---------------------------------------------------------------------
  // Marks on "http://{{host}}/?a={{a}}&a={{a}}".

  /** The split of the Marks example. */
  const UrlTags: Split := Tagged("http://", "host", Tagged("/?a=", "a", Tagged("&a=", "a", Tail(""))))

  /** The Marks example scans back into its split. */
  lemma UrlScan()
    ensures Scan(Text(UrlTags, "{{", "}}"), "{{", "}}") == UrlTags
  {
    FirstAtEndOf("http://", "{{");
    FirstAtEndOf("host", "}}");
    FirstAtEndOf("/?a=", "{{");
    FirstAtEndOf("a", "}}");
    FirstAtEndOf("&a=", "{{");
    FreeOf("", "{{");
    ScanUnique(UrlTags, Text(UrlTags, "{{", "}}"), "{{", "}}");
  }

  /** Marks lists the tags of a URL template in order, repeats kept. */
  lemma MarksOfUrl()
    ensures Names(Scan(Text(UrlTags, "{{", "}}"), "{{", "}}")) == ["host", "a", "a"]
  {
    UrlScan();
    TrimSpaceOfTrimmed("host");
    TrimSpaceOfTrimmed("a");
  }

  // ---------------------------------------------------------------------
  // The unknown-tag tests: "{foo}q{unexpected}{missing}bar{foo}" with the
  // delimiters "{" and "}", and a map that binds only "foo" to "xxxx".

  /** The split of the template of the unknown-tag tests. */
  const UnknownTags: Split :=
    Tagged("", "foo", Tagged("q", "unexpected", Tagged("", "missing", Tagged("bar", "foo", Tail("")))))

  /** The map of the template tests. */
  const FooMap: Mapping := map["foo" := Str("xxxx")]

  /** The TagFunc of the ExecuteFunc test: "xxxx" for foo, "zz" for any
      other tag, each written in one write whose result it returns. */
  function FooOrZz(tag: string): Action
  {
    if tag == "foo" then Emit("xxxx") else Emit("zz")
  }

  /** The unknown-tag template scans back into its split. */
  lemma UnknownTagsScan()
    ensures Scan(Text(UnknownTags, "{", "}"), "{", "}") == UnknownTags
  {
    FirstAtEndOf("", "{");
    FirstAtEndOf("foo", "}");
    FirstAtEndOf("q", "{");
    FirstAtEndOf("unexpected", "}");
    FirstAtEndOf("missing", "}");
    FirstAtEndOf("bar", "{");
    FreeOf("", "{");
    ScanUnique(UnknownTags, Text(UnknownTags, "{", "}"), "{", "}");
  }

  /** Concatenation regroups. */
  lemma Regroup(a: string, b: string, c: string)
    ensures a + (b + c) == a + b + c
  {
  }

  /** A trimmed tag expands to what the resolver writes for it, between
      the literal before it and the expansion of the rest. */
  lemma ExpandedStep(x: string, raw: string, next: Split, startTag: string, f: TagFunc)
    requires Trimmed(raw)
    ensures Expanded(Tagged(x, raw, next), startTag, f) == x + Fill(f, raw) + Expanded(next, startTag, f)
  {
    TrimSpaceOfTrimmed(raw);
  }

  /** A template of four trimmed tags and a tail expands to its literals
      with what the resolver writes for each tag in between. */
  lemma ExpandedOfFour(x1: string, r1: string, x2: string, r2: string, x3: string, r3: string,
                       x4: string, r4: string, y: string, startTag: string, f: TagFunc)
    requires Trimmed(r1) && Trimmed(r2) && Trimmed(r3) && Trimmed(r4)
    ensures Expanded(Tagged(x1, r1, Tagged(x2, r2, Tagged(x3, r3, Tagged(x4, r4, Tail(y))))), startTag, f)
         == x1 + Fill(f, r1) + x2 + Fill(f, r2) + x3 + Fill(f, r3) + x4 + Fill(f, r4) + y
  {
    var s4 := Tagged(x4, r4, Tail(y));
    var s3 := Tagged(x3, r3, s4);
    var s2 := Tagged(x2, r2, s3);
    ExpandedStep(x4, r4, Tail(y), startTag, f);
    ExpandedStep(x3, r3, s4, startTag, f);
    ExpandedStep(x2, r2, s3, startTag, f);
    ExpandedStep(x1, r1, s2, startTag, f);
    var f1, f2, f3, f4 := Fill(f, r1), Fill(f, r2), Fill(f, r3), Fill(f, r4);
    Regroup(x3 + f3, x4 + f4, y);
    Regroup(x3 + f3, x4, f4);
    Regroup(x2 + f2, x3 + f3 + x4 + f4, y);
    Regroup(x2 + f2, x3 + f3 + x4, f4);
    Regroup(x2 + f2, x3 + f3, x4);
    Regroup(x2 + f2, x3, f3);
    Regroup(x1 + f1, x2 + f2 + x3 + f3 + x4 + f4, y);
    Regroup(x1 + f1, x2 + f2 + x3 + f3 + x4, f4);
    Regroup(x1 + f1, x2 + f2 + x3 + f3, x4);
    Regroup(x1 + f1, x2 + f2 + x3, f3);
    Regroup(x1 + f1, x2 + f2, x3);
    Regroup(x1 + f1, x2, f2);
  }

  /** The unknown-tag template expands to its literals with what the
      resolver writes for foo, unexpected, missing and foo in between. */
  lemma UnknownTagsExpanded(f: TagFunc)
    ensures Expanded(UnknownTags, "{", f)
         == Fill(f, "foo") + "q" + Fill(f, "unexpected") + Fill(f, "missing") + "bar" + Fill(f, "foo")
  {
    ExpandedOfFour("", "foo", "q", "unexpected", "", "missing", "bar", "foo", "", "{", f);
    var foo, unexpected, missing := Fill(f, "foo"), Fill(f, "unexpected"), Fill(f, "missing");
    assert "" + foo == foo;
    var p := foo + "q" + unexpected;
    assert p + "" == p;
    var q := p + missing + "bar" + foo;
    assert q + "" == q;
  }

  /** Any resolver that fails only when the sink does, run on the
      unknown-tag template into an empty unlimited sink, writes the
      template's literals with what it writes for foo, unexpected, missing
      and foo in between, and counts exactly that. */
  lemma RunUnknownTags(f: TagFunc)
    requires Plain(f) && !f.Fetch?
    ensures var out := Fill(f, "foo") + "q" + Fill(f, "unexpected") + Fill(f, "missing") + "bar" + Fill(f, "foo");
      Run(Scan(Text(UnknownTags, "{", "}"), "{", "}"), "{", "}", AsResolver(f), Env(Sink([], None), []))
      == Outcome(Env(Sink(out, None), []), |out|, None)
  {
    UnknownTagsScan();
    RunUnlimited(UnknownTags, "{", "}", f, Env(Sink([], None), []));
    UnknownTagsExpanded(f);
    var out := Expanded(UnknownTags, "{", f);
    assert [] + out == out;
  }

  /** TestExecuteStd and TestExecuteStringStd: keepUnknownTagFunc writes
      the unknown tags back, "xxxxq{unexpected}{missing}barxxxx". */
  lemma ExecuteStdUnknownTags()
    ensures Run(Scan(Text(UnknownTags, "{", "}"), "{", "}"), "{", "}",
                AsResolver(KeepUnknown("{", "}", FooMap)), Env(Sink([], None), []))
         == Outcome(Env(Sink("xxxx" + "q" + "{unexpected}" + "{missing}" + "bar" + "xxxx", None), []), 33, None)
  {
    var f := KeepUnknown("{", "}", FooMap);
    assert Fill(f, "foo") == "xxxx";
    assert Fill(f, "unexpected") == "{unexpected}";
    assert Fill(f, "missing") == "{missing}";
    RunUnknownTags(f);
  }

  /** TestExecute and TestExecuteString: stdTagFunc drops the unknown
      tags, "xxxxqbarxxxx". */
  lemma ExecuteUnknownTags()
    ensures Run(Scan(Text(UnknownTags, "{", "}"), "{", "}"), "{", "}",
                AsResolver(Std(FooMap)), Env(Sink([], None), []))
         == Outcome(Env(Sink("xxxx" + "q" + "bar" + "xxxx", None), []), 12, None)
  {
    var f := Std(FooMap);
    assert Fill(f, "foo") == "xxxx";
    assert Fill(f, "unexpected") == [] && Fill(f, "missing") == [];
    RunUnknownTags(f);
    var x := "xxxx";
    assert x + "q" + [] + [] + "bar" + x == x + "q" + "bar" + x;
  }

  /** TestExecuteFunc: the caller's TagFunc writes for every tag,
      "xxxxqzzzzbarxxxx". */
  lemma ExecuteFuncUnknownTags()
    ensures Run(Scan(Text(UnknownTags, "{", "}"), "{", "}"), "{", "}",
                AsResolver(Callback(FooOrZz)), Env(Sink([], None), []))
         == Outcome(Env(Sink("xxxx" + "q" + "zz" + "zz" + "bar" + "xxxx", None), []), 16, None)
  {
    RunUnknownTags(Callback(FooOrZz));
  }

  // ---------------------------------------------------------------------
  // TestExecuteFuncStringWithErr: "{a} is {b}'s best friend".

  /** The split of the test's template. */
  const FriendTags: Split := Tagged("", "a", Tagged(" is ", "b", Tail("'s best friend")))

  /** The first TagFunc of the test: "Alice" for a, an error for any other
      tag. */
  function AliceOrFail(tag: string): Action
  {
    if tag == "a" then Emit("Alice") else Action("", 0, Some(CallbackError(111)))
  }

  /** The second TagFunc of the test: "Alice" for a, "Bob" for any other
      tag. */
  function AliceOrBob(tag: string): Action
  {
    if tag == "a" then Emit("Alice") else Emit("Bob")
  }

  /** The test's template scans back into its split. */
  lemma FriendScan()
    ensures Scan(Text(FriendTags, "{", "}"), "{", "}") == FriendTags
  {
    FirstAtEndOf("", "{");
    FirstAtEndOf("a", "}");
    FirstAtEndOf(" is ", "{");
    FirstAtEndOf("b", "}");
    FreeOf("'s best friend", "{");
    ScanUnique(FriendTags, Text(FriendTags, "{", "}"), "{", "}");
  }

  /** The tag names of the test's template are already trimmed. */
  lemma FriendNames()
    ensures TrimSpace("a") == "a" && TrimSpace("b") == "b"
  {
    TrimSpaceOfTrimmed("a");
    TrimSpaceOfTrimmed("b");
  }

  /** A caller's TagFunc that writes its text for a and fails on b: the run
      ends with the error for b, after the text for a and the literal
      " is ", and ExecuteFuncString returns an empty string. */
  lemma FriendStops(call: string -> Action)
    requires call("a") == Emit(call("a").text) && call("b").err.Some?
    ensures var o := Run(Scan(Text(FriendTags, "{", "}"), "{", "}"), "{", "}",
                         AsResolver(Callback(call)), Env(Sink([], None), []));
      && o == Outcome(Env(Sink(call("a").text + " is " + call("b").text, None), []),
                      |call("a").text| + 4 + call("b").count, call("b").err)
      && Result(o) == []
  {
    FriendScan();
    FriendNames();
    var env := Env(Sink([], None), []);
    CallbackStep("", "a", FriendTags.next, "{", "}", call, env);
    var text := call("a").text;
    var env1 := Env(Sink([] + "" + text, None), []);
    CallbackErrorStops(" is ", "b", Tail("'s best friend"), "{", "}", Callback(call), call("b"), env1);
    assert [] + "" + text == text;
  }

  /** A failing TagFunc: the run ends with the TagFunc's own error after
      "Alice is ", so ExecuteFuncString returns that error and an empty
      string. */
  lemma FriendFails()
    ensures var o := Run(Scan(Text(FriendTags, "{", "}"), "{", "}"), "{", "}",
                         AsResolver(Callback(AliceOrFail)), Env(Sink([], None), []));
      && o == Outcome(Env(Sink("Alice" + " is ", None), []), 9, Some(CallbackError(111)))
      && Result(o) == []
  {
    FriendStops(AliceOrFail);
    var alice := "Alice";
    assert alice + " is " + "" == alice + " is ";
  }

  /** The test's template expands to its literals with what the resolver
      writes for a and b in between. */
  lemma FriendExpanded(f: TagFunc)
    ensures Expanded(FriendTags, "{", f) == Fill(f, "a") + " is " + Fill(f, "b") + "'s best friend"
  {
    var a, b := Fill(f, "a"), Fill(f, "b");
    ExpandedStep(" is ", "b", Tail("'s best friend"), "{", f);
    ExpandedStep("", "a", FriendTags.next, "{", f);
    assert "" + a == a;
    Regroup(a, " is " + b, "'s best friend");
    Regroup(a, " is ", b);
  }

  /** Any resolver that fails only when the sink does, run on the test's
      template into an empty unlimited sink, writes the template's literals
      with what it writes for a and b in between, and counts exactly that. */
  lemma RunFriend(f: TagFunc)
    requires Plain(f) && !f.Fetch?
    ensures var out := Fill(f, "a") + " is " + Fill(f, "b") + "'s best friend";
      Run(Scan(Text(FriendTags, "{", "}"), "{", "}"), "{", "}", AsResolver(f), Env(Sink([], None), []))
      == Outcome(Env(Sink(out, None), []), |out|, None)
  {
    FriendScan();
    RunUnlimited(FriendTags, "{", "}", f, Env(Sink([], None), []));
    FriendExpanded(f);
    var out := Expanded(FriendTags, "{", f);
    assert [] + out == out;
  }

  /** A TagFunc that never fails: ExecuteFuncString returns the filled-in
      template, "Alice is Bob's best friend". */
  lemma FriendSucceeds()
    ensures var o := Run(Scan(Text(FriendTags, "{", "}"), "{", "}"), "{", "}",
                         AsResolver(Callback(AliceOrBob)), Env(Sink([], None), []));
      Result(o) == "Alice" + " is " + "Bob" + "'s best friend" && o.err == None
  {
    RunFriend(Callback(AliceOrBob));
  }
}
