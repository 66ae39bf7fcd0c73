/**
 The leaves whose Go code updates variables or fields: the jq iterator loop, the json
 transcoder and the kafka middleware with its `sync.Once`. Each is shown to compute what
 the interpreter of Components says.
 */
module Leaves {
  import opened Values
  import opened World
  import opened Components
  import opened Accounting
  import opened TwoPass

  lemma {:induction false} FirstFailureAt(items: seq<Item>, i: nat)
    requires i < |items| && items[i].Failed?
    requires forall j :: 0 <= j < i ==> items[j].Emitted?
    ensures FirstFailure(items) == items[i].err
  {
    if i > 0 {
      FirstFailureAt(items[1..], i - 1);
    }
  }

  /** `apply` of run/middleware/jq: collect until the iterator ends or fails. */
  method Apply(o: Oracle, w: Trace, ctx: Ctx, code: Option<string>, input: Value) returns (r: Reply)
    ensures r == JqApply(o, w, ctx, code, input)
  {
    if code == None {
      return Reply(Outcome(input, None), w);
    }
    var q := RunJq(code.value, ctx, input);
    var items := o(w, q).items;
    var w1 := Ask(o, w, q);
    var processed := [];
    var i := 0;
    while i < |items|
      invariant 0 <= i <= |items|
      invariant forall j :: 0 <= j < i ==> items[j].Emitted?
      invariant |processed| == i && forall j :: 0 <= j < i ==> processed[j] == items[j].v
    {
      if items[i].Failed? {
        FirstFailureAt(items, i);
        return Failure(items[i].err, w1);
      }
      processed := processed + [items[i].v];
      i := i + 1;
    }
    if |processed| == 1 {
      return Reply(Outcome(processed[0], None), w1);
    }
    assert processed == seq(|items|, i requires 0 <= i < |items| && items[i].Emitted? => items[i].v);
    return Reply(Outcome(Arr(processed), None), w1);
  }

  /** `transcode` of run/middleware/json. */
  method TranscodeValue(o: Oracle, w: Trace, v: Value, strategy: string) returns (r: Reply)
    ensures r == Transcode(o, w, v, strategy)
  {
    var newValue, w1 := v, w;
    if strategy == "serialize" {
      var a := o(w, MarshalJson(v));
      w1 := Ask(o, w, MarshalJson(v));
      if a.err.Some? {
        return Failure(a.err.value, w1);
      }
      newValue := a.value;
    } else if strategy == "deserialize" {
      if !v.Str? {
        return Failure(InputNotString, w);
      }
      var a := o(w, UnmarshalJson(v.s));
      w1 := Ask(o, w, UnmarshalJson(v.s));
      if a.err.None? {
        newValue := a.value;
      }
    } else if strategy != "" {
      return Failure(UnknownStrategy, w);
    }
    return Reply(Outcome(newValue, None), w1);
  }

  /**
   Transcoding fails exactly for an unknown strategy, for input that is no string where text is
   to be read, and for values the library cannot write. Only "serialize" and the reading of a
   string ask the library, once; text it cannot read is passed through without an error.
   */
  lemma TranscodeFailsIff(o: Oracle, w: Trace, v: Value, strategy: string)
    ensures var r := Transcode(o, w, v, strategy);
            && (r.out.err.Some? <==>
                  || strategy !in ["", "serialize", "deserialize"]
                  || (strategy == "deserialize" && !v.Str?)
                  || (strategy == "serialize" && o(w, MarshalJson(v)).err.Some?))
            && (r.world != w <==> strategy == "serialize" || (strategy == "deserialize" && v.Str?))
            && w <= r.world && |r.world| <= |w| + 1
            && (r.out.err.Some? ==> r.out.output == Nil)
            && (r.out.err.None? && r.out.output != v ==>
                  r.world[|w|].answer.err.None? && r.out.output == r.world[|w|].answer.value)
            && (r.out.err.None? && r.world != w && r.world[|w|].answer.err.Some? ==> r.out.output == v)
  {
    assert "serialize" != "deserialize" by { assert |"serialize"| != |"deserialize"|; }
  }

  /**
   The library can write `v` and reads what it wrote as `v` again. That depends on the value: Go's
   encoding/json reads every number as a float.
   */
  ghost predicate Back(o: Oracle, v: Value) {
    forall w :: o(w, MarshalJson(v)).err.None? ==>
      o(w, MarshalJson(v)).value.Str? && ReadsAs(o, o(w, MarshalJson(v)).value.s, v)
  }

  ghost predicate ReadsAs(o: Oracle, text: string, v: Value) {
    forall w :: o(w, UnmarshalJson(text)).err.None? && o(w, UnmarshalJson(text)).value == v
  }

  /** Round trip: for a value that reads back, "deserialize" undoes "serialize". */
  lemma TranscodeRoundTrip(o: Oracle, w: Trace, w': Trace, v: Value)
    requires Back(o, v) && Transcode(o, w, v, "serialize").out.err.None?
    ensures var text := Transcode(o, w, v, "serialize").out.output;
            Transcode(o, w', text, "deserialize").out == Outcome(v, None)
  {
    TranscodeFailsIff(o, w, v, "serialize");
    assert ReadsAs(o, o(w, MarshalJson(v)).value.s, v);
    assert |"serialize"| != |"deserialize"|;
  }

  /** A layer that writes inputs and reads outputs, and the layer that undoes it. */
  const WRITES := Json("serialize", "deserialize")
  const READS := Json("deserialize", "serialize")

  /** The world in which the inner fn of the two layers is called. */
  function WorldInside(o: Oracle, w: Trace, input: Value): Trace {
    var text := Transcode(o, w, input, "serialize");
    Transcode(o, text.world, text.out.output, "deserialize").world
  }

  /**
   The two layers cancel on values that read back: a fn inside them gets the input given to them,
   its error comes out, and so does its output if the library can write it.
   */
  lemma JsonLayersCancel(o: Oracle, w: Trace, ctx: Ctx, input: Value, f: Fn)
    requires Back(o, input) && o(w, MarshalJson(input)).err.None?
    ensures var r := InvokeFn(o, WorldInside(o, w, input), ctx, f, input);
            var out := InvokeMw(o, w, ctx, Composed(Layer(WRITES), Layer(READS)), input, f).out;
            && (r.out.err.Some? ==> out.err == r.out.err)
            && (r.out.err.None? && o(r.world, MarshalJson(r.out.output)).err.Some? ==>
                  out.err == o(r.world, MarshalJson(r.out.output)).err)
            && (r.out.err.None? && o(r.world, MarshalJson(r.out.output)).err.None? && Back(o, r.out.output) ==>
                  out == Outcome(r.out.output, None))
  {
    hide InvokeFn, InvokeLeaf, Transcode, Back;
    TranscodeFailsIff(o, w, input, "serialize");
    TranscodeRoundTrip(o, w, Transcode(o, w, input, "serialize").world, input);
    var r := InvokeFn(o, WorldInside(o, w, input), ctx, f, input);
    TwoLayers(o, w, ctx, input, f);
    if r.out.err.None? {
      SerializedError(o, r.world, r.out.output);
      if o(r.world, MarshalJson(r.out.output)).err.None? && Back(o, r.out.output) {
        TranscodeRoundTrip(o, r.world, Transcode(o, r.world, r.out.output, "serialize").world, r.out.output);
      }
    }
  }

  /** A fn that returns its input, and a library that writes the integer 5 and reads it as a float. */
  const FLOATS: Oracle := (w: Trace, q: Query) =>
    match q
    case CallBase(_, _, input) => Answer(input, None, [])
    case MarshalJson(_) => Answer(Str("5"), None, [])
    case UnmarshalJson(_) => Answer(Float(5.0), None, [])
    case _ => NO_ANSWER

  /** On a value that does not read back the layers show: an integer goes in and a float comes out. */
  lemma IntegersShow()
    ensures !Back(FLOATS, Int(5))
    ensures InvokeFn(FLOATS, [], Background, Base(0), Int(5)).out == Outcome(Int(5), None)
    ensures InvokeMw(FLOATS, [], Background, Composed(Layer(WRITES), Layer(READS)), Int(5), Base(0)).out
            == Outcome(Float(5.0), None)
  {
    assert FLOATS([], MarshalJson(Int(5))).value == Str("5");
    assert !ReadsAs(FLOATS, "5", Int(5)) by {
      assert FLOATS([], UnmarshalJson("5")).value == Float(5.0);
    }
    FloatsThrough();
  }

  lemma FloatsThrough()
    ensures InvokeMw(FLOATS, [], Background, Composed(Layer(WRITES), Layer(READS)), Int(5), Base(0)).out
            == Outcome(Float(5.0), None)
  {
    assert |"serialize"| != |"deserialize"|;
    var m := Composed(Layer(WRITES), Layer(READS));
    var w1 := Transcode(FLOATS, [], Int(5), "serialize");
    var w2 := Transcode(FLOATS, w1.world, w1.out.output, "deserialize");
    assert w2.out == Outcome(Float(5.0), None);
    var r := InvokeFn(FLOATS, w2.world, Background, Base(0), Float(5.0));
    assert r.out == Outcome(Float(5.0), None);
    var r1 := After(FLOATS, Background, READS, r);
    assert r1.out == Outcome(Str("5"), None);
    assert After(FLOATS, Background, WRITES, r1).out == Outcome(Float(5.0), None);
    InvokeIsLayers(FLOATS, [], Background, m, Int(5), Base(0));
    assert Flatten(m) == [WRITES, READS];
    assert [WRITES, READS][1..] == [READS] && [READS][1..] == [];
  }

  lemma SerializedError(o: Oracle, w: Trace, v: Value)
    ensures Transcode(o, w, v, "serialize").out.err == o(w, MarshalJson(v)).err
  {
  }

  /** The two layers around a fn, written out. */
  lemma TwoLayers(o: Oracle, w: Trace, ctx: Ctx, input: Value, f: Fn)
    requires Transcode(o, w, input, "serialize").out.err.None?
    requires var text := Transcode(o, w, input, "serialize");
             Transcode(o, text.world, text.out.output, "deserialize").out == Outcome(input, None)
    ensures var r := InvokeFn(o, WorldInside(o, w, input), ctx, f, input);
            InvokeMw(o, w, ctx, Composed(Layer(WRITES), Layer(READS)), input, f) ==
            After(o, ctx, WRITES, After(o, ctx, READS, r))
  {
    hide InvokeFn, Transcode;
    var m := Composed(Layer(WRITES), Layer(READS));
    InvokeIsLayers(o, w, ctx, m, input, f);
    assert Flatten(m) == [WRITES, READS];
    assert [WRITES, READS][1..] == [READS] && [READS][1..] == [];
  }

  /** Once made, the first answer to a producer request stays the first. */
  lemma {:induction false} FirstInitStays(w: Trace, w': Trace, id: nat)
    requires w <= w' && FirstInit(w, id).Some?
    ensures FirstInit(w', id) == FirstInit(w, id)
    decreases |w'|
  {
    if w != w' {
      FirstInitStays(w, w'[..|w'| - 1], id);
    } else {
      assert w == w';
    }
  }

  /** The middleware object of run/middleware/kafka. */
  class KafkaMiddleware {
    const id: nat
    const successTopic: string
    const errorTopic: string
    var producer: bool                        // a producer exists
    var initializationError: Option<Err>
    var once: bool                            // `once.Do` has run

    constructor (id: nat, successTopic: string, errorTopic: string)
      ensures this.id == id && this.successTopic == successTopic && this.errorTopic == errorTopic
      ensures forall w :: FirstInit(w, id).None? ==> Agrees(w)
    {
      this.id, this.successTopic, this.errorTopic := id, successTopic, errorTopic;
      producer, initializationError, once := false, None, false;
    }

    /** The fields say about producer creation what the trace says. */
    ghost predicate Agrees(w: Trace)
      reads this
    {
      && (once <==> FirstInit(w, id).Some?)
      && initializationError == InitError(w, id)
      && (producer <==> once && initializationError.None?)
    }

    method InitializeProducer(o: Oracle, w: Trace) returns (w': Trace)
      requires !producer
      modifies this`producer
      ensures w' == Ask(o, w, InitProducer(id))
      ensures producer <==> o(w, InitProducer(id)).err.None?
    {
      producer := o(w, InitProducer(id)).err.None?;
      w' := Ask(o, w, InitProducer(id));
    }

    /** The body of `once.Do`, run if it has not run yet. */
    method InitializeOnce(o: Oracle, w: Trace) returns (w': Trace)
      requires Agrees(w)
      modifies this
      ensures w' == InitOnce(o, w, id)
      ensures Agrees(w') && once
    {
      w' := w;
      if !once {
        if !producer {
          var answer := o(w, InitProducer(id)).err;
          w' := InitializeProducer(o, w);
          initializationError := answer;
        }
        once := true;
        assert w'[..|w'| - 1] == w;
      }
    }

    method Invoke(o: Oracle, w: Trace, ctx: Ctx, input: Value, f: Fn) returns (r: Reply)
      requires Agrees(w)
      modifies this
      ensures r == InvokeLeaf(o, w, ctx, Kafka(id, successTopic, errorTopic), input, f)
      ensures Agrees(r.world)
    {
      hide InvokeFn, BaseCalls, FirstInit, Weight, Inits, InitOnce, Publish, JqApply, Transcode;
      var w1 := InitializeOnce(o, w);
      if initializationError.Some? {
        return Failure(initializationError.value, w1);
      }

      var inner := InvokeFn(o, w1, ctx, f, input);
      r := SendResult(o, inner);
      FnAccounted(o, w1, ctx, f, input);
      FirstInitStays(w1, r.world, id);
    }

    /** What Invoke does once the inner fn has returned: `err` is reassigned along the way. */
    method SendResult(o: Oracle, inner: Reply) returns (r: Reply)
      ensures r == Publish(o, id, successTopic, errorTopic, inner)
      ensures inner.world <= r.world
    {
      var output, err, w := inner.out.output, inner.out.err, inner.world;
      if err.Some? && errorTopic != "" {
        var q := Send(id, errorTopic, OfErr(err.value));
        var newErr := o(w, q).err;
        w := Ask(o, w, q);
        if newErr.Some? {
          err := Some(Wrapped(err.value, newErr.value));
        }
      }
      if err.None? && successTopic != "" && output != Nil {
        var q := Send(id, successTopic, OfValue(output));
        err := o(w, q).err;
        w := Ask(o, w, q);
      }
      return Reply(Outcome(output, err), w);
    }
  }
}
