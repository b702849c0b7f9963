/**
 The text form of codec parameters: what `applyCodecCapabilities` writes and `fmtpConfigParser`
 reads.
 */
module Fmtp {
  import opened Util
  import opened Text

  /** JavaScript's numbers, through the conversions that the code uses. */
  datatype Numbers<!N> = Numbers(
    number: string -> Option<N>,  // `Number(s)`, or `None` for NaN
    show: N -> string,            // `${n}`
    falsy: N -> bool,             // `!n`
    one: N)

  /** A number is read back from its own spelling, which has none of the separators. */
  ghost predicate Faithful<N(!new)>(js: Numbers<N>)
  {
    && (forall n :: js.number(js.show(n)) == Some(n) && Clean(js.show(n)))
    && js.show(js.one) == "1"
  }

  datatype Value<N> = Num(n: N) | Word(s: string) | True | False | Undefined

  /** The properties of a parameters object, in insertion order. */
  datatype Parameter<N> = Parameter(key: string, value: Value<N>)

  predicate Clean(s: string)
  {
    ';' !in s && '=' !in s
  }

  /** `text.includes(part)` */
  predicate Includes(text: string, part: string)
  {
    part <= text || (text != "" && Includes(text[1..], part))
  }

  predicate IsSlice(text: string, part: string, at: nat)
  {
    at + |part| <= |text| && text[at..at + |part|] == part
  }

  /** It does exactly if the part is a slice of the text. */
  lemma {:induction false} IncludesIff(text: string, part: string)
    ensures Includes(text, part) <==> exists at: nat :: IsSlice(text, part, at)
  {
    if part <= text {
      assert IsSlice(text, part, 0);
    } else if text != "" {
      IncludesIff(text[1..], part);
      if at: nat :| IsSlice(text[1..], part, at) {
        assert text[1..][at..at + |part|] == text[at + 1..at + 1 + |part|];
        assert IsSlice(text, part, at + 1);
      }
      if at: nat :| IsSlice(text, part, at) {
        assert at > 0;
        assert text[1..][at - 1..at - 1 + |part|] == text[at..at + |part|];
        assert IsSlice(text[1..], part, at - 1);
      }
    }
  }

  function Shown<N>(js: Numbers<N>, v: Value<N>): string
  {
    match v
    case Num(n) => js.show(n)
    case Word(s) => s
    case True => "true"
    case False => "false"
    case Undefined => "undefined"
  }

  /** One turn of the loop that writes a config: false values and keys found in the text are left out. */
  function WriteOne<N>(js: Numbers<N>, config: string, p: Parameter<N>): string
  {
    if p.value.False? || Includes(config, p.key) then config
    else if |config| > 0 then config + ";" + p.key + "=" + Shown(js, p.value)
    else p.key + "=" + Shown(js, p.value)
  }

  function Write<N>(js: Numbers<N>, ps: seq<Parameter<N>>): string
    decreases |ps|
  {
    if ps == [] then "" else WriteOne(js, Write(js, ps[..|ps| - 1]), ps[|ps| - 1])
  }

  /** `s.split(c)` */
  function SplitOn(s: string, c: char): (parts: seq<string>)
    ensures |parts| > 0
  {
    if s == "" then [""]
    else
      var rest := SplitOn(s[1..], c);
      if s[0] == c then [""] + rest else [[s[0]] + rest[0]] + rest[1..]
  }

  /** One turn of the `reduce` in `fmtpConfigParser`. */
  function ReadOne<N>(js: Numbers<N>, acc: map<string, Value<N>>, part: string): map<string, Value<N>>
  {
    var kv := SplitOn(part, '=');
    if kv[0] == "" then acc
    else if |kv| == 1 then acc[kv[0] := Undefined]
    else acc[kv[0] := match js.number(kv[1]) case Some(n) => Num(n) case None => Word(kv[1])]
  }

  function ReadAll<N>(js: Numbers<N>, parts: seq<string>): map<string, Value<N>>
    decreases |parts|
  {
    if parts == [] then map[] else ReadOne(js, ReadAll(js, parts[..|parts| - 1]), parts[|parts| - 1])
  }

  /** `fmtpConfigParser` */
  function Parse<N>(js: Numbers<N>, config: string): map<string, Value<N>>
  {
    ReadAll(js, SplitOn(config, ';'))
  }

  // ---- Round trip -------------------------------------------------------------------------

  /** Keys and values without separators; a value that is kept is a number or a text that is not one. */
  ghost predicate Writable<N>(js: Numbers<N>, ps: seq<Parameter<N>>)
  {
    && (forall i :: 0 <= i < |ps| ==> WritableOne(js, ps[i]))
    && (forall i, j :: 0 <= i < j < |ps| ==> ps[i].key != ps[j].key)
  }

  predicate WritableOne<N>(js: Numbers<N>, p: Parameter<N>)
  {
    && Clean(p.key)
    && match p.value
       case Num(_) => true
       case Word(s) => Clean(s) && js.number(s).None?
       case False => true
       case _ => false
  }

  /** The parameters that are not false. */
  function Kept<N>(ps: seq<Parameter<N>>): map<string, Value<N>>
    decreases |ps|
  {
    if ps == [] then map[] else
    var kept, p := Kept(ps[..|ps| - 1]), ps[|ps| - 1];
    if p.value.False? then kept else kept[p.key := p.value]
  }

  /** The parameters that are written. */
  function Written<N>(js: Numbers<N>, ps: seq<Parameter<N>>): map<string, Value<N>>
    decreases |ps|
  {
    if ps == [] then map[] else
    var before, p := ps[..|ps| - 1], ps[|ps| - 1];
    if p.value.False? || Includes(Write(js, before), p.key) then Written(js, before)
    else Written(js, before)[p.key := p.value]
  }

  /** A parameter's key occurs, anywhere, in the text written before it. */
  predicate Shadowed<N>(js: Numbers<N>, ps: seq<Parameter<N>>, i: nat)
    requires i < |ps|
  {
    !ps[i].value.False? && Includes(Write(js, ps[..i]), ps[i].key)
  }

  lemma {:induction false} SplitConcat(a: string, b: string, c: char)
    ensures SplitOn(a + [c] + b, c) == SplitOn(a, c) + SplitOn(b, c)
  {
    if a == "" {
      assert a + [c] + b == [c] + b;
      assert ([c] + b)[1..] == b;
    } else {
      assert (a + [c] + b)[1..] == a[1..] + [c] + b;
      SplitConcat(a[1..], b, c);
    }
  }

  lemma {:induction false} SplitNone(a: string, c: char)
    requires c !in a
    ensures SplitOn(a, c) == [a]
  {
    if a != "" {
      SplitNone(a[1..], c);
      assert [a[0]] + a[1..] == a;
    }
  }

  lemma {:induction false} ReadAllConcat<N>(js: Numbers<N>, xs: seq<string>, x: string)
    ensures ReadAll(js, xs + [x]) == ReadOne(js, ReadAll(js, xs), x)
  {
    assert (xs + [x])[..|xs|] == xs;
  }

  /** Reading one written parameter. */
  lemma ReadWritten<N(!new)>(js: Numbers<N>, acc: map<string, Value<N>>, p: Parameter<N>)
    requires Faithful(js) && WritableOne(js, p) && !p.value.False? && p.key != ""
    ensures ReadOne(js, acc, p.key + "=" + Shown(js, p.value)) == acc[p.key := p.value]
    ensures ';' !in p.key + "=" + Shown(js, p.value)
  {
    var v := Shown(js, p.value);
    assert Clean(v);
    SplitConcat(p.key, v, '=');
    SplitNone(p.key, '=');
    SplitNone(v, '=');
    assert p.key + ['='] + v == p.key + "=" + v;
  }

  /**
   A part without `=` reads as undefined, what follows a second `=` is dropped, and a part without
   a key is ignored.
   */
  lemma ReadsPiece<N>(js: Numbers<N>, acc: map<string, Value<N>>, key: string, value: string, more: string)
    requires Clean(key) && Clean(value)
    ensures ReadOne(js, acc, key) == if key == "" then acc else acc[key := Undefined]
    ensures ReadOne(js, acc, key + "=" + value + "=" + more) == ReadOne(js, acc, key + "=" + value)
    ensures ReadOne(js, acc, "=" + value) == acc
  {
    SplitNone(key, '=');
    SplitNone(value, '=');
    SplitConcat(key, value, '=');
    SplitConcat(key + "=" + value, more, '=');
    assert key + ['='] + value == key + "=" + value;
    assert key + "=" + value + ['='] + more == key + "=" + value + "=" + more;
    SplitConcat("", value, '=');
    assert "" + ['='] + value == "=" + value;
  }

  /** Appending a part to a config adds that part to what is read. */
  lemma ParseAppend<N>(js: Numbers<N>, config: string, part: string)
    requires ';' !in part
    ensures Parse(js, config + ";" + part) == ReadOne(js, Parse(js, config), part)
    ensures Parse(js, part) == ReadOne(js, map[], part)
  {
    SplitConcat(config, part, ';');
    SplitNone(part, ';');
    assert config + [';'] + part == config + ";" + part;
    ReadAllConcat(js, SplitOn(config, ';'), part);
    ReadAllConcat(js, [], part);
    assert [] + [part] == [part];
  }

  lemma {:induction false} EverythingIncludesEmpty(text: string)
    ensures Includes(text, "")
  {
  }

  /** What is read is what was written. */
  lemma {:induction false} ParseWrite<N(!new)>(js: Numbers<N>, ps: seq<Parameter<N>>)
    requires Faithful(js) && Writable(js, ps)
    ensures Parse(js, Write(js, ps)) == Written(js, ps)
    decreases |ps|
  {
    if ps == [] {
      ReadAllConcat(js, [], "");
      assert [] + [""] == [""];
    } else {
      var before, p := ps[..|ps| - 1], ps[|ps| - 1];
      ParseWrite(js, before);
      ParseWriteOne(js, Write(js, before), p);
    }
  }

  /** Writing one parameter more adds that parameter to what is read, unless it is left out. */
  lemma ParseWriteOne<N(!new)>(js: Numbers<N>, config: string, p: Parameter<N>)
    requires Faithful(js) && WritableOne(js, p)
    ensures Parse(js, WriteOne(js, config, p)) ==
            if p.value.False? || Includes(config, p.key) then Parse(js, config)
            else Parse(js, config)[p.key := p.value]
  {
    if !p.value.False? && !Includes(config, p.key) {
      EverythingIncludesEmpty(config);
      var part := p.key + "=" + Shown(js, p.value);
      ReadWritten(js, Parse(js, config), p);
      ParseAppend(js, config, part);
      if |config| > 0 {
        assert config + ";" + p.key + "=" + Shown(js, p.value) == config + ";" + part;
      } else {
        ReadAllConcat(js, [], "");
        assert [] + [""] == [""];
      }
    }
  }

  lemma {:induction false} WrittenIsKeptIff<N>(js: Numbers<N>, ps: seq<Parameter<N>>)
    requires forall i, j :: 0 <= i < j < |ps| ==> ps[i].key != ps[j].key
    ensures forall k :: k in Kept(ps) ==> exists i :: 0 <= i < |ps| && ps[i].key == k
    ensures Written(js, ps).Keys <= Kept(ps).Keys
    ensures Written(js, ps) == Kept(ps) <==> forall i :: 0 <= i < |ps| ==> !Shadowed(js, ps, i)
    decreases |ps|
  {
    if ps != [] {
      var before, p := ps[..|ps| - 1], ps[|ps| - 1];
      assert ps == before + [p];
      WrittenIsKeptIff(js, before);
      forall i | 0 <= i < |before|
        ensures Shadowed(js, before, i) <==> Shadowed(js, ps, i)
      {
        assert before[..i] == ps[..i] && before[i] == ps[i];
      }
      forall k | k in Kept(ps)
        ensures exists i :: 0 <= i < |ps| && ps[i].key == k
      {
        if k in Kept(before) {
          var i :| 0 <= i < |before| && before[i].key == k;
          assert ps[i].key == k;
        } else {
          assert ps[|ps| - 1].key == k;
        }
      }
      assert p.key !in Kept(before);
      LastDecides(js, before, p);
    }
  }

  lemma LastDecides<N>(js: Numbers<N>, before: seq<Parameter<N>>, p: Parameter<N>)
    requires p.key !in Kept(before) && Written(js, before).Keys <= Kept(before).Keys
    ensures var ps := before + [p];
            Written(js, ps) == Kept(ps) <==> Written(js, before) == Kept(before) && !Shadowed(js, ps, |before|)
  {
    var ps := before + [p];
    assert ps[..|before|] == before && ps[..|ps| - 1] == before;
    var (w, k) := (Written(js, before), Kept(before));
    if !p.value.False? && !Includes(Write(js, before), p.key) && w[p.key := p.value] == k[p.key := p.value] {
      forall x | x in k
        ensures x in w && w[x] == k[x]
      {
        assert x in k[p.key := p.value];
        assert w[p.key := p.value][x] == k[p.key := p.value][x];
      }
      assert w == k;
    }
  }

  /**
   Parsing a written config gives back the capability's parameters that are not false, exactly if
   no key occurs in the text already written when its turn comes.
   */
  lemma RoundTripIff<N(!new)>(js: Numbers<N>, ps: seq<Parameter<N>>)
    requires Faithful(js) && Writable(js, ps)
    ensures Parse(js, Write(js, ps)) == Kept(ps) <==> forall i :: 0 <= i < |ps| ==> !Shadowed(js, ps, i)
  {
    ParseWrite(js, ps);
    WrittenIsKeptIff(js, ps);
  }

  /** Conversions of that kind exist: decimal natural numbers. */
  lemma FaithfulExists() returns (js: Numbers<nat>)
    ensures Faithful(js)
  {
    js := Numbers(
      (s: string) => if n: nat :| Decimal(n) == s then Some(n) else None,
      n => Decimal(n), n => n == 0, 1);
    forall n: nat
      ensures js.number(js.show(n)) == Some(n) && Clean(js.show(n))
    {
      DecimalClean(n);
      var m: nat :| Decimal(m) == Decimal(n) && js.number(js.show(n)) == Some(m);
      DecimalInjective(m, n);
    }
  }

  lemma {:induction false} DecimalClean(n: nat)
    ensures Clean(Decimal(n))
    decreases n
  {
    if n >= 10 {
      DecimalClean(n / 10);
    }
  }
}
