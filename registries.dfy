/**
 * `ReversibleCodec` and the serialization `AdapterRegistry` holding them.
 *
 * Values of every Java type are drawn from one type `V`; a class is named by
 * its string form. A codec's input and output types, which Java reads off
 * its generic signature, are fields here.
 */
module SerializationRegistries {
  import opened Java
  import opened Results

  type Class = string

  datatype ReversibleCodec<!V> = ReversibleCodec(
    inputType: Class,
    outputType: Class,
    encode: V -> Result<V>,
    decode: V -> Result<V>)

  /** `reverse()`: a view encoding by this codec's decoder and decoding by its encoder. */
  function Reverse<V>(c: ReversibleCodec<V>): (r: ReversibleCodec<V>)
    ensures r.inputType == c.outputType && r.outputType == c.inputType
  {
    ReversibleCodec(c.outputType, c.inputType, c.decode, c.encode)
  }

  lemma ReverseSwapsDirections<V>(c: ReversibleCodec<V>, x: V)
    ensures Reverse(c).encode(x) == c.decode(x)
    ensures Reverse(c).decode(x) == c.encode(x)
  {
  }

  lemma ReverseIsInvolution<V>(c: ReversibleCodec<V>)
    ensures Reverse(Reverse(c)) == c
  {
  }

  /** `register` refuses a codec whose type pair, or its swap, is already taken. */
  predicate Clash<V>(existing: ReversibleCodec<V>, codec: ReversibleCodec<V>)
  {
    (existing.inputType == codec.inputType && existing.outputType == codec.outputType)
    || (existing.inputType == codec.outputType && existing.outputType == codec.inputType)
  }

  function AlreadyRegistered<V>(codec: ReversibleCodec<V>): string
  {
    "Codec for " + codec.inputType + " to " + codec.outputType + " is already registered."
  }

  const NO_CODEC_FOR_OBJECT: string := "No codec found for object class: "
  const NO_CODEC_FOR_CLASSES: string := "No codec found for classes: "

  /** No two registered codecs share a type pair, directly or swapped. */
  ghost predicate NoClashes<V>(codecs: seq<ReversibleCodec<V>>)
  {
    forall i, j :: 0 <= i < j < |codecs| ==> !Clash(codecs[i], codecs[j])
  }

  /**
   * `register(codecs...)` on a registry holding `existing`: each codec in turn
   * is added unless it clashes with one already held, where the call stops.
   */
  ghost function Admit<V>(existing: seq<ReversibleCodec<V>>, codecs: seq<ReversibleCodec<V>>)
    : (seq<ReversibleCodec<V>>, Except<()>)
    decreases |codecs|
  {
    if |codecs| == 0 then (existing, Ok(()))
    else if exists e :: e in existing && Clash(e, codecs[0]) then
      (existing, Throw(IllegalArgument(AlreadyRegistered(codecs[0]))))
    else Admit(existing + [codecs[0]], codecs[1..])
  }

  /**
   * The codecs before the first clashing one are added, in order; the call
   * fails exactly when some codec clashes, and then the clashing codec is
   * left out together with everything after it.
   */
  lemma {:induction false} AdmitMeaning<V>(existing: seq<ReversibleCodec<V>>, codecs: seq<ReversibleCodec<V>>)
    requires NoClashes(existing)
    decreases |codecs|
    ensures var (after, r) := Admit(existing, codecs);
      var n := |after| - |existing|;
      existing <= after && 0 <= n <= |codecs| && after == existing + codecs[..n]
      && NoClashes(after)
      && (r.Ok? <==> n == |codecs|)
      && (r.Throw? ==> exists e :: e in after && Clash(e, codecs[n]))
  {
    if |codecs| > 0 && !(exists e :: e in existing && Clash(e, codecs[0])) {
      var next := existing + [codecs[0]];
      assert NoClashes(next) by {
        forall i, j | 0 <= i < j < |next|
          ensures !Clash(next[i], next[j])
        {
          if j == |existing| {
            assert next[i] in existing;
          }
        }
      }
      AdmitMeaning(next, codecs[1..]);
      var (after, r) := Admit(next, codecs[1..]);
      var n := |after| - |next|;
      assert codecs[..n + 1] == [codecs[0]] + codecs[1..][..n];
      if r.Throw? {
        assert codecs[1..][n] == codecs[n + 1];
      }
    }
  }

  /** `registries.AdapterRegistry`; `codecs` is the `CODECS` set in its iteration order. */
  class AdapterRegistry<V> {
    var codecs: seq<ReversibleCodec<V>>

    ghost predicate Valid()
      reads this
    {
      NoClashes(codecs)
    }

    constructor ()
      ensures Valid() && codecs == []
    {
      codecs := [];
    }

    method Register(newCodecs: seq<ReversibleCodec<V>>) returns (r: Except<()>)
      requires Valid()
      modifies this
      ensures Valid()
      ensures (codecs, r) == Admit(old(codecs), newCodecs)
    {
      AdmitMeaning(codecs, newCodecs);
      var i := 0;
      while i < |newCodecs|
        invariant 0 <= i <= |newCodecs|
        invariant NoClashes(codecs)
        invariant Admit(old(codecs), newCodecs) == Admit(codecs, newCodecs[i..])
      {
        var codec := newCodecs[i];
        var j := 0;
        while j < |codecs|
          invariant 0 <= j <= |codecs|
          invariant forall k :: 0 <= k < j ==> !Clash(codecs[k], codec)
        {
          if Clash(codecs[j], codec) {
            assert codecs[j] in codecs && newCodecs[i..][0] == codec;
            return Throw(IllegalArgument(AlreadyRegistered(codec)));
          }
          j := j + 1;
        }
        assert !exists e :: e in codecs && Clash(e, codec);
        assert newCodecs[i..][1..] == newCodecs[i + 1..];
        AdmitMeaning(codecs, newCodecs[i..]);
        codecs := codecs + [codec];
        i := i + 1;
      }
      r := Ok(());
    }

    /** `getTo`: the first codec, in iteration order, whose output type is `objClass`. */
    method GetTo(objClass: Class) returns (r: Option<ReversibleCodec<V>>)
      ensures r.None? <==> forall k :: 0 <= k < |codecs| ==> codecs[k].outputType != objClass
      ensures r.Some? ==>
        exists i ::
          0 <= i < |codecs| && codecs[i] == r.value
          && r.value.outputType == objClass
          && forall k :: 0 <= k < i ==> codecs[k].outputType != objClass
    {
      var i := 0;
      while i < |codecs|
        invariant 0 <= i <= |codecs|
        invariant forall k :: 0 <= k < i ==> codecs[k].outputType != objClass
      {
        if codecs[i].outputType == objClass {
          return Some(codecs[i]);
        }
        i := i + 1;
      }
      r := None;
    }

    /** `getFrom`: the first codec, in iteration order, whose input type is `objClass`. */
    method GetFrom(objClass: Class) returns (r: Option<ReversibleCodec<V>>)
      ensures r.None? <==> forall k :: 0 <= k < |codecs| ==> codecs[k].inputType != objClass
      ensures r.Some? ==>
        exists i ::
          0 <= i < |codecs| && codecs[i] == r.value
          && r.value.inputType == objClass
          && forall k :: 0 <= k < i ==> codecs[k].inputType != objClass
    {
      var i := 0;
      while i < |codecs|
        invariant 0 <= i <= |codecs|
        invariant forall k :: 0 <= k < i ==> codecs[k].inputType != objClass
      {
        if codecs[i].inputType == objClass {
          return Some(codecs[i]);
        }
        i := i + 1;
      }
      r := None;
    }

    /**
     * `get(inputType, outputType)`: a codec registered for exactly that pair,
     * else the reverse of one registered for the swapped pair.
     */
    method Get(inputType: Class, outputType: Class) returns (r: Option<ReversibleCodec<V>>)
      ensures r.Some? ==> r.value.inputType == inputType && r.value.outputType == outputType
      ensures r.Some? <==>
        exists k ::
          0 <= k < |codecs|
          && ((codecs[k].inputType == inputType && codecs[k].outputType == outputType)
              || (codecs[k].inputType == outputType && codecs[k].outputType == inputType))
      ensures (exists k :: 0 <= k < |codecs| && codecs[k].inputType == inputType && codecs[k].outputType == outputType)
        ==> r.Some? && r.value in codecs
      ensures r.Some? && (forall k :: 0 <= k < |codecs| ==> !(codecs[k].inputType == inputType && codecs[k].outputType == outputType))
        ==> Reverse(r.value) in codecs
    {
      var i := 0;
      while i < |codecs|
        invariant 0 <= i <= |codecs|
        invariant forall k :: 0 <= k < i ==> !(codecs[k].inputType == inputType && codecs[k].outputType == outputType)
      {
        if codecs[i].inputType == inputType && codecs[i].outputType == outputType {
          return Some(codecs[i]);
        }
        i := i + 1;
      }
      i := 0;
      while i < |codecs|
        invariant 0 <= i <= |codecs|
        invariant forall k :: 0 <= k < i ==> !(codecs[k].inputType == outputType && codecs[k].outputType == inputType)
      {
        if codecs[i].inputType == outputType && codecs[i].outputType == inputType {
          ReverseIsInvolution(codecs[i]);
          return Some(Reverse(codecs[i]));
        }
        i := i + 1;
      }
      r := None;
    }

    method GetToOrThrow(objClass: Class) returns (r: Except<ReversibleCodec<V>>)
      ensures r.Ok? <==> exists k :: 0 <= k < |codecs| && codecs[k].outputType == objClass
      ensures r.Ok? ==> r.value in codecs && r.value.outputType == objClass
      ensures r.Throw? ==> r.error == IllegalArgument(NO_CODEC_FOR_OBJECT + objClass)
    {
      var found := GetTo(objClass);
      match found
      case Some(c) => r := Ok(c);
      case None => r := Throw(IllegalArgument(NO_CODEC_FOR_OBJECT + objClass));
    }

    method GetFromOrThrow(objClass: Class) returns (r: Except<ReversibleCodec<V>>)
      ensures r.Ok? <==> exists k :: 0 <= k < |codecs| && codecs[k].inputType == objClass
      ensures r.Ok? ==> r.value in codecs && r.value.inputType == objClass
      ensures r.Throw? ==> r.error == IllegalArgument(NO_CODEC_FOR_OBJECT + objClass)
    {
      var found := GetFrom(objClass);
      match found
      case Some(c) => r := Ok(c);
      case None => r := Throw(IllegalArgument(NO_CODEC_FOR_OBJECT + objClass));
    }

    method GetOrThrow(inputType: Class, outputType: Class) returns (r: Except<ReversibleCodec<V>>)
      ensures r.Ok? ==> r.value.inputType == inputType && r.value.outputType == outputType
      ensures r.Ok? <==>
        exists k ::
          0 <= k < |codecs|
          && ((codecs[k].inputType == inputType && codecs[k].outputType == outputType)
              || (codecs[k].inputType == outputType && codecs[k].outputType == inputType))
      ensures r.Throw? ==> r.error == IllegalArgument(NO_CODEC_FOR_CLASSES + inputType + ", " + outputType)
    {
      var found := Get(inputType, outputType);
      match found
      case Some(c) => r := Ok(c);
      case None => r := Throw(IllegalArgument(NO_CODEC_FOR_CLASSES + inputType + ", " + outputType));
    }
  }
}

/**
 * `AdapterCodec` and the `adapter` package's `AdapterRegistry` (the core and
 * the base copies are the same code). Unlike the serialization registry, it
 * refuses only an exact duplicate pair, and `getTo`/`getFrom` match on
 * `fromClass`/`toClass` respectively.
 */
module Adapters {
  import opened Java

  type Class = string

  datatype AdapterCodec<!V> = AdapterCodec(
    toClass: Class,
    fromClass: Class,
    to: V -> V,
    from: V -> V)

  /** `reverse()`: a view converting with `from` where this one uses `to`, and back. */
  function Reverse<V>(c: AdapterCodec<V>): (r: AdapterCodec<V>)
    ensures r.toClass == c.fromClass && r.fromClass == c.toClass
  {
    AdapterCodec(c.fromClass, c.toClass, c.from, c.to)
  }

  lemma ReverseSwapsDirections<V>(c: AdapterCodec<V>, x: V)
    ensures Reverse(c).to(x) == c.from(x)
    ensures Reverse(c).from(x) == c.to(x)
  {
  }

  lemma ReverseIsInvolution<V>(c: AdapterCodec<V>)
    ensures Reverse(Reverse(c)) == c
  {
  }

  predicate SamePair<V>(existing: AdapterCodec<V>, codec: AdapterCodec<V>)
  {
    existing.toClass == codec.toClass && existing.fromClass == codec.fromClass
  }

  function AlreadyRegistered<V>(codec: AdapterCodec<V>): string
  {
    "Codec for classes " + codec.toClass + " and " + codec.fromClass + " is already registered."
  }

  const NO_CODEC_FOR_OBJECT: string := "No codec found for object class: "
  const NO_CODEC_FOR_CLASSES: string := "No codec found for classes: "

  ghost predicate NoDuplicates<V>(codecs: seq<AdapterCodec<V>>)
  {
    forall i, j :: 0 <= i < j < |codecs| ==> !SamePair(codecs[i], codecs[j])
  }

  /** `register(codecs...)`: each codec in turn, stopping at the first exact duplicate. */
  ghost function Admit<V>(existing: seq<AdapterCodec<V>>, codecs: seq<AdapterCodec<V>>)
    : (seq<AdapterCodec<V>>, Except<()>)
    decreases |codecs|
  {
    if |codecs| == 0 then (existing, Ok(()))
    else if exists e :: e in existing && SamePair(e, codecs[0]) then
      (existing, Throw(IllegalArgument(AlreadyRegistered(codecs[0]))))
    else Admit(existing + [codecs[0]], codecs[1..])
  }

  lemma {:induction false} AdmitMeaning<V>(existing: seq<AdapterCodec<V>>, codecs: seq<AdapterCodec<V>>)
    requires NoDuplicates(existing)
    decreases |codecs|
    ensures var (after, r) := Admit(existing, codecs);
      var n := |after| - |existing|;
      existing <= after && 0 <= n <= |codecs| && after == existing + codecs[..n]
      && NoDuplicates(after)
      && (r.Ok? <==> n == |codecs|)
      && (r.Throw? ==> exists e :: e in after && SamePair(e, codecs[n]))
  {
    if |codecs| > 0 && !(exists e :: e in existing && SamePair(e, codecs[0])) {
      var next := existing + [codecs[0]];
      assert NoDuplicates(next) by {
        forall i, j | 0 <= i < j < |next|
          ensures !SamePair(next[i], next[j])
        {
          if j == |existing| {
            assert next[i] in existing;
          }
        }
      }
      AdmitMeaning(next, codecs[1..]);
      var (after, r) := Admit(next, codecs[1..]);
      var n := |after| - |next|;
      assert codecs[..n + 1] == [codecs[0]] + codecs[1..][..n];
      if r.Throw? {
        assert codecs[1..][n] == codecs[n + 1];
      }
    }
  }

  /** A codec and its reverse are different pairs, so both may be registered. */
  lemma SwappedPairCoexists<V>(c: AdapterCodec<V>)
    requires c.toClass != c.fromClass
    ensures Admit([c], [Reverse(c)]) == ([c, Reverse(c)], Ok(()))
  {
    assert !exists e :: e in [c] && SamePair(e, Reverse(c));
    assert [Reverse(c)][1..] == [];
    assert [c] + [Reverse(c)] == [c, Reverse(c)];
  }

  class AdapterRegistry<V> {
    var codecs: seq<AdapterCodec<V>>

    ghost predicate Valid()
      reads this
    {
      NoDuplicates(codecs)
    }

    constructor ()
      ensures Valid() && codecs == []
    {
      codecs := [];
    }

    method Register(newCodecs: seq<AdapterCodec<V>>) returns (r: Except<()>)
      requires Valid()
      modifies this
      ensures Valid()
      ensures (codecs, r) == Admit(old(codecs), newCodecs)
    {
      AdmitMeaning(codecs, newCodecs);
      var i := 0;
      while i < |newCodecs|
        invariant 0 <= i <= |newCodecs|
        invariant NoDuplicates(codecs)
        invariant Admit(old(codecs), newCodecs) == Admit(codecs, newCodecs[i..])
      {
        var codec := newCodecs[i];
        var j := 0;
        while j < |codecs|
          invariant 0 <= j <= |codecs|
          invariant forall k :: 0 <= k < j ==> !SamePair(codecs[k], codec)
        {
          if SamePair(codecs[j], codec) {
            assert codecs[j] in codecs && newCodecs[i..][0] == codec;
            return Throw(IllegalArgument(AlreadyRegistered(codec)));
          }
          j := j + 1;
        }
        assert !exists e :: e in codecs && SamePair(e, codec);
        assert newCodecs[i..][1..] == newCodecs[i + 1..];
        AdmitMeaning(codecs, newCodecs[i..]);
        codecs := codecs + [codec];
        i := i + 1;
      }
      r := Ok(());
    }

    /** `getTo`: the first codec, in iteration order, whose `fromClass` is `objClass`. */
    method GetTo(objClass: Class) returns (r: Option<AdapterCodec<V>>)
      ensures r.None? <==> forall k :: 0 <= k < |codecs| ==> codecs[k].fromClass != objClass
      ensures r.Some? ==>
        exists i ::
          0 <= i < |codecs| && codecs[i] == r.value
          && r.value.fromClass == objClass
          && forall k :: 0 <= k < i ==> codecs[k].fromClass != objClass
    {
      var i := 0;
      while i < |codecs|
        invariant 0 <= i <= |codecs|
        invariant forall k :: 0 <= k < i ==> codecs[k].fromClass != objClass
      {
        if codecs[i].fromClass == objClass {
          return Some(codecs[i]);
        }
        i := i + 1;
      }
      r := None;
    }

    /** `getFrom`: the first codec, in iteration order, whose `toClass` is `objClass`. */
    method GetFrom(objClass: Class) returns (r: Option<AdapterCodec<V>>)
      ensures r.None? <==> forall k :: 0 <= k < |codecs| ==> codecs[k].toClass != objClass
      ensures r.Some? ==>
        exists i ::
          0 <= i < |codecs| && codecs[i] == r.value
          && r.value.toClass == objClass
          && forall k :: 0 <= k < i ==> codecs[k].toClass != objClass
    {
      var i := 0;
      while i < |codecs|
        invariant 0 <= i <= |codecs|
        invariant forall k :: 0 <= k < i ==> codecs[k].toClass != objClass
      {
        if codecs[i].toClass == objClass {
          return Some(codecs[i]);
        }
        i := i + 1;
      }
      r := None;
    }

    /** `get(toClass, fromClass)`: an exact match, else the reverse of the swapped pair. */
    method Get(toClass: Class, fromClass: Class) returns (r: Option<AdapterCodec<V>>)
      ensures r.Some? ==> r.value.toClass == toClass && r.value.fromClass == fromClass
      ensures r.Some? <==>
        exists k ::
          0 <= k < |codecs|
          && ((codecs[k].toClass == toClass && codecs[k].fromClass == fromClass)
              || (codecs[k].toClass == fromClass && codecs[k].fromClass == toClass))
      ensures (exists k :: 0 <= k < |codecs| && codecs[k].toClass == toClass && codecs[k].fromClass == fromClass)
        ==> r.Some? && r.value in codecs
      ensures r.Some? && (forall k :: 0 <= k < |codecs| ==> !(codecs[k].toClass == toClass && codecs[k].fromClass == fromClass))
        ==> Reverse(r.value) in codecs
    {
      var i := 0;
      while i < |codecs|
        invariant 0 <= i <= |codecs|
        invariant forall k :: 0 <= k < i ==> !(codecs[k].toClass == toClass && codecs[k].fromClass == fromClass)
      {
        if codecs[i].toClass == toClass && codecs[i].fromClass == fromClass {
          return Some(codecs[i]);
        }
        i := i + 1;
      }
      i := 0;
      while i < |codecs|
        invariant 0 <= i <= |codecs|
        invariant forall k :: 0 <= k < i ==> !(codecs[k].toClass == fromClass && codecs[k].fromClass == toClass)
      {
        if codecs[i].toClass == fromClass && codecs[i].fromClass == toClass {
          ReverseIsInvolution(codecs[i]);
          return Some(Reverse(codecs[i]));
        }
        i := i + 1;
      }
      r := None;
    }

    method GetToOrThrow(objClass: Class) returns (r: Except<AdapterCodec<V>>)
      ensures r.Ok? <==> exists k :: 0 <= k < |codecs| && codecs[k].fromClass == objClass
      ensures r.Ok? ==> r.value in codecs && r.value.fromClass == objClass
      ensures r.Throw? ==> r.error == IllegalArgument(NO_CODEC_FOR_OBJECT + objClass)
    {
      var found := GetTo(objClass);
      match found
      case Some(c) => r := Ok(c);
      case None => r := Throw(IllegalArgument(NO_CODEC_FOR_OBJECT + objClass));
    }

    method GetFromOrThrow(objClass: Class) returns (r: Except<AdapterCodec<V>>)
      ensures r.Ok? <==> exists k :: 0 <= k < |codecs| && codecs[k].toClass == objClass
      ensures r.Ok? ==> r.value in codecs && r.value.toClass == objClass
      ensures r.Throw? ==> r.error == IllegalArgument(NO_CODEC_FOR_OBJECT + objClass)
    {
      var found := GetFrom(objClass);
      match found
      case Some(c) => r := Ok(c);
      case None => r := Throw(IllegalArgument(NO_CODEC_FOR_OBJECT + objClass));
    }

    method GetOrThrow(toClass: Class, fromClass: Class) returns (r: Except<AdapterCodec<V>>)
      ensures r.Ok? ==> r.value.toClass == toClass && r.value.fromClass == fromClass
      ensures r.Ok? <==>
        exists k ::
          0 <= k < |codecs|
          && ((codecs[k].toClass == toClass && codecs[k].fromClass == fromClass)
              || (codecs[k].toClass == fromClass && codecs[k].fromClass == toClass))
      ensures r.Throw? ==> r.error == IllegalArgument(NO_CODEC_FOR_CLASSES + toClass + ", " + fromClass)
    {
      var found := Get(toClass, fromClass);
      match found
      case Some(c) => r := Ok(c);
      case None => r := Throw(IllegalArgument(NO_CODEC_FOR_CLASSES + toClass + ", " + fromClass));
    }
  }
}

/**
 * The two `WrapperRegistry` classes: a table from a class to the function
 * (in `adapter`) or the encoder (in `registries`) that wraps objects of that
 * exact runtime class. `classOf` is `Object.getClass`.
 */
module Wrappers {
  import opened Java
  import opened Results

  type Class = string

  /** A label for the `NullPointerException` raised on a missing wrapper; the JVM's own message is not modelled. */
  const NO_WRAPPER: string := "no wrapper registered for the object's class"

  /** `adapter.WrapperRegistry`. */
  class WrapperRegistry<O> {
    const classOf: O -> Class
    var wrappers: map<Class, O -> O>

    constructor (classOf: O -> Class)
      ensures this.classOf == classOf && wrappers == map[]
    {
      this.classOf := classOf;
      wrappers := map[];
    }

    /** `register`: a later registration for the same class replaces the earlier. */
    method Register(clazz: Class, wrapper: O -> O)
      modifies this
      ensures wrappers == old(wrappers)[clazz := wrapper]
    {
      wrappers := wrappers[clazz := wrapper];
    }

    /** `wrap`: the function registered for the object's exact class; none is a NullPointerException. */
    method Wrap(obj: O) returns (r: Except<O>)
      ensures classOf(obj) in wrappers ==> r == Ok(wrappers[classOf(obj)](obj))
      ensures classOf(obj) !in wrappers ==> r == Throw(NullPointer(NO_WRAPPER))
    {
      var clazz := classOf(obj);
      if clazz !in wrappers {
        return Throw(NullPointer(NO_WRAPPER));
      }
      r := Ok(wrappers[clazz](obj));
    }
  }

  /** `registries.WrapperRegistry`: the encoder's result is unwrapped, so an error gives `null`. */
  class EncoderRegistry<O> {
    const classOf: O -> Class
    var wrappers: map<Class, O -> Result<O>>

    constructor (classOf: O -> Class)
      ensures this.classOf == classOf && wrappers == map[]
    {
      this.classOf := classOf;
      wrappers := map[];
    }

    method Register(clazz: Class, wrapper: O -> Result<O>)
      modifies this
      ensures wrappers == old(wrappers)[clazz := wrapper]
    {
      wrappers := wrappers[clazz := wrapper];
    }

    /** `wrap`: `Ok(None)` is the `null` an encoder error unwraps to. */
    method Wrap(obj: O) returns (r: Except<Option<O>>)
      ensures classOf(obj) in wrappers ==> r == Ok(Unwrap(wrappers[classOf(obj)](obj)))
      ensures classOf(obj) in wrappers ==>
        (r == Ok(None) <==> wrappers[classOf(obj)](obj).Error?)
      ensures classOf(obj) !in wrappers ==> r == Throw(NullPointer(NO_WRAPPER))
    {
      var clazz := classOf(obj);
      if clazz !in wrappers {
        return Throw(NullPointer(NO_WRAPPER));
      }
      r := Ok(Unwrap(wrappers[clazz](obj)));
    }
  }
}
