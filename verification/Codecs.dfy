/**
 Codec capabilities applied to an m-line: the order of its payload types and its fmtp configs
 (`applyCodecCapabilities`).
 */
module Codecs {
  import opened Util
  import opened Fmtp

  datatype ContentType = Audio | Video

  /** A codec capability; its MIME type is split into content type and name. */
  datatype Capability<N> = Capability(contentType: ContentType, name: string, parameters: seq<Parameter<N>>)

  datatype Rtp = Rtp(payload: nat, codec: string)
  datatype FmtpLine = FmtpLine(payload: nat, config: string)

  function Lower(s: string): string
  {
    seq(|s|, i requires 0 <= i < |s| => if 'A' <= s[i] <= 'Z' then s[i] - 'A' + 'a' else s[i])
  }

  /** The same character but for the case of a letter. */
  predicate SameLetter(a: char, b: char)
  {
    a == b || ('A' <= a <= 'Z' && b == a - 'A' + 'a') || ('A' <= b <= 'Z' && a == b - 'A' + 'a')
  }

  lemma LowerIff(s: string, t: string)
    ensures Lower(s) == Lower(t) <==> |s| == |t| && forall i :: 0 <= i < |s| ==> SameLetter(s[i], t[i])
  {
    if Lower(s) == Lower(t) {
      assert |Lower(s)| == |Lower(t)|;
      forall i | 0 <= i < |s|
        ensures SameLetter(s[i], t[i])
      {
        assert Lower(s)[i] == Lower(t)[i];
      }
    }
  }

  /** A parameters object as a map. */
  function Properties<N>(ps: seq<Parameter<N>>): map<string, Value<N>>
    decreases |ps|
  {
    if ps == [] then map[] else Properties(ps[..|ps| - 1])[ps[|ps| - 1].key := ps[|ps| - 1].value]
  }

  /** `getParameters` */
  function GetParameters<N>(js: Numbers<N>, fmtp: seq<FmtpLine>, payload: nat): map<string, Value<N>>
  {
    Parse(js, Config(fmtp, payload))
  }

  function Config(fmtp: seq<FmtpLine>, payload: nat): string
  {
    if fmtp == [] then "" else if fmtp[0].payload == payload then fmtp[0].config else Config(fmtp[1..], payload)
  }

  predicate Matches<N(==)>(js: Numbers<N>, cap: Capability<N>, r: Rtp, fmtp: seq<FmtpLine>)
  {
    && cap.name != ""
    && Lower(r.codec) == Lower(cap.name)
    && (|cap.parameters| == 0 || cap.contentType.Audio?
        || GetParameters(js, fmtp, r.payload) == Properties(cap.parameters))
  }

  /** `findCodecFromCodecCapability` */
  function Find<N(==)>(js: Numbers<N>, cap: Capability<N>, rtp: seq<Rtp>, fmtp: seq<FmtpLine>): (found: Option<Rtp>)
    ensures found.Some? ==> found.value in rtp && Matches(js, cap, found.value, fmtp)
    ensures found.None? ==> forall r :: r in rtp ==> !Matches(js, cap, r, fmtp)
  {
    if rtp == [] then None
    else if Matches(js, cap, rtp[0], fmtp) then Some(rtp[0])
    else Find(js, cap, rtp[1..], fmtp)
  }

  /**
   A capability without parameters, or for audio, matches by name alone, upper or lower case; one for
   video with parameters does not match a line that reads differently in any of them.
   */
  lemma MatchesWhen<N>(js: Numbers<N>, cap: Capability<N>, r: Rtp, fmtp: seq<FmtpLine>)
    ensures Lower(r.codec) != Lower(cap.name) || cap.name == "" ==> !Matches(js, cap, r, fmtp)
    ensures cap.name != "" && Lower(r.codec) == Lower(cap.name) && (cap.parameters == [] || cap.contentType.Audio?)
            ==> Matches(js, cap, r, fmtp)
    ensures cap.contentType.Video? && cap.parameters != []
            && (exists key :: DiffersIn(GetParameters(js, fmtp, r.payload), Properties(cap.parameters), key))
            ==> !Matches(js, cap, r, fmtp)
  {
  }

  ghost predicate DiffersIn<N>(read: map<string, Value<N>>, wanted: map<string, Value<N>>, key: string)
  {
    (key in read <==> key !in wanted) || (key in read && key in wanted && read[key] != wanted[key])
  }

  // ---- The order of the payload types -----------------------------------------------------

  /** What each capability matches. */
  function Matched<N(==)>(js: Numbers<N>, caps: seq<Capability<N>>, rtp: seq<Rtp>, fmtp: seq<FmtpLine>)
      : (found: seq<Option<Rtp>>)
    ensures |found| == |caps|
    ensures forall r :: Some(r) in found ==> r in rtp
  {
    seq(|caps|, i requires 0 <= i < |caps| => Find(js, caps[i], rtp, fmtp))
  }

  function Values<T>(os: seq<Option<T>>): seq<T>
    decreases |os|
  {
    if os == [] then [] else
    var before := Values(os[..|os| - 1]);
    match os[|os| - 1]
    case Some(x) => before + [x]
    case None => before
  }

  /** The matched codecs, in capability order. */
  function Preferred<N(==)>(js: Numbers<N>, caps: seq<Capability<N>>, rtp: seq<Rtp>, fmtp: seq<FmtpLine>): seq<Rtp>
  {
    Values(Matched(js, caps, rtp, fmtp))
  }

  function Payloads(rs: seq<Rtp>): seq<nat>
  {
    seq(|rs|, i requires 0 <= i < |rs| => rs[i].payload)
  }

  /** The codecs that no capability matched. */
  function Rest(rtp: seq<Rtp>, preferred: seq<Rtp>): seq<Rtp>
  {
    if rtp == [] then []
    else if rtp[0].payload in Payloads(preferred) then Rest(rtp[1..], preferred)
    else [rtp[0]] + Rest(rtp[1..], preferred)
  }

  function Sorted<N(==)>(js: Numbers<N>, caps: seq<Capability<N>>, rtp: seq<Rtp>, fmtp: seq<FmtpLine>): seq<Rtp>
  {
    var preferred := Preferred(js, caps, rtp, fmtp);
    preferred + Rest(rtp, preferred)
  }

  ghost predicate NoDuplicates<T(!new)>(xs: seq<T>)
  {
    forall i, j :: 0 <= i < j < |xs| ==> xs[i] != xs[j]
  }

  /** `xs` is `ys` with some elements left out. */
  predicate IsSubsequence<T(==)>(xs: seq<T>, ys: seq<T>)
  {
    xs == [] || (ys != [] && (if xs[0] == ys[0] then IsSubsequence(xs[1..], ys[1..]) else IsSubsequence(xs, ys[1..])))
  }

  lemma {:induction false} RestProperties(rtp: seq<Rtp>, preferred: seq<Rtp>)
    ensures forall r :: r in Rest(rtp, preferred) <==> r in rtp && r.payload !in Payloads(preferred)
    ensures IsSubsequence(Rest(rtp, preferred), rtp)
  {
    if rtp != [] {
      RestProperties(rtp[1..], preferred);
      assert rtp == [rtp[0]] + rtp[1..];
      var rest := Rest(rtp[1..], preferred);
      if rtp[0].payload in Payloads(preferred) {
        if rest != [] {
          assert rest[0] in rest;
          assert rest[0] != rtp[0];
        }
      } else {
        assert Rest(rtp, preferred)[1..] == rest;
      }
    }
  }

  lemma {:induction false} ValuesAre<T>(os: seq<Option<T>>)
    ensures forall x :: x in Values(os) <==> Some(x) in os
    decreases |os|
  {
    if os != [] {
      ValuesAre(os[..|os| - 1]);
      assert os == os[..|os| - 1] + [os[|os| - 1]];
    }
  }

  lemma PayloadsOf(rs: seq<Rtp>, p: nat)
    ensures p in Payloads(rs) <==> exists r :: r in rs && r.payload == p
  {
    if p in Payloads(rs) {
      var i :| 0 <= i < |rs| && Payloads(rs)[i] == p;
      assert rs[i] in rs && rs[i].payload == p;
    }
    if r :| r in rs && r.payload == p {
      var i :| 0 <= i < |rs| && rs[i] == r;
      assert Payloads(rs)[i] == p;
    }
  }

  /**
   The reordered list holds exactly the m-line's payload types: first the matched ones in capability
   order, then the others in their old order.
   */
  lemma SortedPayloads<N>(js: Numbers<N>, caps: seq<Capability<N>>, rtp: seq<Rtp>, fmtp: seq<FmtpLine>)
    ensures var preferred := Preferred(js, caps, rtp, fmtp);
            var sorted := Sorted(js, caps, rtp, fmtp);
            && (forall p :: p in Payloads(sorted) <==> p in Payloads(rtp))
            && preferred <= sorted
            && IsSubsequence(sorted[|preferred|..], rtp)
            && forall r :: r in sorted[|preferred|..] <==> r in rtp && r.payload !in Payloads(preferred)
  {
    var preferred := Preferred(js, caps, rtp, fmtp);
    var sorted := Sorted(js, caps, rtp, fmtp);
    var rest := Rest(rtp, preferred);
    RestProperties(rtp, preferred);
    ValuesAre(Matched(js, caps, rtp, fmtp));
    assert sorted[|preferred|..] == rest;
    forall p
      ensures p in Payloads(sorted) <==> p in Payloads(rtp)
    {
      PayloadsOf(sorted, p);
      PayloadsOf(rtp, p);
      PayloadsOf(preferred, p);
      if r :| r in rtp && r.payload == p && p !in Payloads(preferred) {
        assert r in rest && r in sorted;
      }
      if r :| r in preferred && r.payload == p {
        assert r in sorted;
      }
    }
  }

  /** `which` lists the positions that hold a value, in increasing order, and `xs` their values. */
  ghost predicate InOrder<T>(os: seq<Option<T>>, which: seq<nat>, xs: seq<T>)
  {
    && |which| == |xs|
    && (forall i, j :: 0 <= i < j < |which| ==> which[i] < which[j])
    && (forall i :: 0 <= i < |which| ==> which[i] < |os| && os[which[i]] == Some(xs[i]))
    && (forall c: nat :: c < |os| && os[c].Some? ==> c in which)
  }

  /** The matched codecs come in the order of the capabilities that matched them. */
  lemma PreferredInOrder<N>(js: Numbers<N>, caps: seq<Capability<N>>, rtp: seq<Rtp>, fmtp: seq<FmtpLine>)
      returns (which: seq<nat>)
    ensures InOrder(Matched(js, caps, rtp, fmtp), which, Preferred(js, caps, rtp, fmtp))
  {
    which := ValuesInOrder(Matched(js, caps, rtp, fmtp));
  }

  lemma {:induction false} ValuesInOrder<T>(os: seq<Option<T>>) returns (which: seq<nat>)
    ensures InOrder(os, which, Values(os))
    decreases |os|
  {
    which := [];
    if os != [] {
      var before, o := os[..|os| - 1], os[|os| - 1];
      which := ValuesInOrder(before);
      InOrderOneMore(before, which, Values(before), o);
      assert before + [o] == os;
      which := if o.Some? then which + [|before|] else which;
    }
  }

  lemma InOrderOneMore<T>(os: seq<Option<T>>, which: seq<nat>, xs: seq<T>, o: Option<T>)
    requires InOrder(os, which, xs)
    ensures o.None? ==> InOrder(os + [o], which, xs)
    ensures o.Some? ==> InOrder(os + [o], which + [|os|], xs + [o.value])
  {
    var all := os + [o];
    assert forall c: nat :: c < |os| ==> all[c] == os[c];
    if o.Some? {
      var w := which + [|os|];
      assert w[|which|] == |os|;
      forall c: nat | c < |all| && all[c].Some?
        ensures c in w
      {
        if c < |os| {
          assert c in which;
        }
      }
    }
  }

  lemma NoDuplicatesCount(xs: seq<nat>)
    ensures NoDuplicates(xs) <==> forall x :: multiset(xs)[x] <= 1
  {
    if xs == [] {
    } else {
      var before, last := xs[..|xs| - 1], xs[|xs| - 1];
      assert xs == before + [last];
      NoDuplicatesCount(before);
      assert forall x :: multiset(xs)[x] == multiset(before)[x] + (if x == last then 1 else 0);
      assert last in before <==> multiset(before)[last] > 0;
      if NoDuplicates(before) && last in before {
        var i :| 0 <= i < |before| && before[i] == last;
        assert xs[i] == xs[|xs| - 1];
        assert multiset(xs)[last] == 2;
      }
      if NoDuplicates(xs) {
        assert forall i, j :: 0 <= i < j < |before| ==> before[i] == xs[i] && before[j] == xs[j];
      }
    }
  }

  lemma {:induction false} RestDistinct(rtp: seq<Rtp>, preferred: seq<Rtp>)
    requires NoDuplicates(Payloads(rtp))
    ensures NoDuplicates(Payloads(Rest(rtp, preferred)))
  {
    if rtp != [] {
      assert Payloads(rtp)[1..] == Payloads(rtp[1..]);
      RestDistinct(rtp[1..], preferred);
      RestProperties(rtp[1..], preferred);
      var rest := Rest(rtp[1..], preferred);
      if rtp[0].payload !in Payloads(preferred) {
        forall j | 0 <= j < |rest|
          ensures Payloads(rest)[j] != rtp[0].payload
        {
          assert rest[j] in rest && rest[j] in rtp[1..];
          var k :| 0 <= k < |rtp[1..]| && rtp[1..][k] == rest[j];
          assert Payloads(rtp)[k + 1] == rest[j].payload;
          assert Payloads(rtp)[0] == rtp[0].payload;
        }
        assert Rest(rtp, preferred) == [rtp[0]] + rest;
        assert Payloads(Rest(rtp, preferred)) == [rtp[0].payload] + Payloads(rest);
      }
    }
  }

  /** It is a permutation of them exactly if no two capabilities match the same payload type. */
  lemma PermutationIff<N>(js: Numbers<N>, caps: seq<Capability<N>>, rtp: seq<Rtp>, fmtp: seq<FmtpLine>)
    requires NoDuplicates(Payloads(rtp))
    ensures multiset(Payloads(Sorted(js, caps, rtp, fmtp))) == multiset(Payloads(rtp))
            <==> NoDuplicates(Payloads(Preferred(js, caps, rtp, fmtp)))
  {
    var preferred := Preferred(js, caps, rtp, fmtp);
    var rest := Rest(rtp, preferred);
    var sorted := Sorted(js, caps, rtp, fmtp);
    SortedPayloads(js, caps, rtp, fmtp);
    NoDuplicatesCount(Payloads(rtp));
    NoDuplicatesCount(Payloads(sorted));
    RestDistinct(rtp, preferred);
    RestProperties(rtp, preferred);
    assert Payloads(sorted) == Payloads(preferred) + Payloads(rest);
    assert NoDuplicates(Payloads(sorted)) <==> NoDuplicates(Payloads(preferred)) by {
      ConcatDistinct(preferred, rest);
    }
    if NoDuplicates(Payloads(sorted)) {
      SamePayloads(Payloads(sorted), Payloads(rtp));
    }
  }

  lemma ConcatDistinct(preferred: seq<Rtp>, rest: seq<Rtp>)
    requires NoDuplicates(Payloads(rest))
    requires forall r :: r in rest ==> r.payload !in Payloads(preferred)
    ensures NoDuplicates(Payloads(preferred) + Payloads(rest)) <==> NoDuplicates(Payloads(preferred))
  {
    var (ps, qs) := (Payloads(preferred), Payloads(rest));
    if NoDuplicates(ps) {
      forall i, j | 0 <= i < j < |ps + qs|
        ensures (ps + qs)[i] != (ps + qs)[j]
      {
        if j >= |ps| {
          assert rest[j - |ps|] in rest;
          assert (ps + qs)[j] == rest[j - |ps|].payload;
          if i < |ps| {
            assert (ps + qs)[i] in ps;
          }
        }
      }
    } else {
      var i, j :| 0 <= i < j < |ps| && ps[i] == ps[j];
      assert (ps + qs)[i] == (ps + qs)[j];
    }
  }

  lemma SamePayloads(xs: seq<nat>, ys: seq<nat>)
    requires NoDuplicates(xs) && NoDuplicates(ys) && forall x :: x in xs <==> x in ys
    ensures multiset(xs) == multiset(ys)
  {
    NoDuplicatesCount(xs);
    NoDuplicatesCount(ys);
    forall x
      ensures multiset(xs)[x] == multiset(ys)[x]
    {
      assert x in xs <==> x in multiset(xs);
      assert x in ys <==> x in multiset(ys);
    }
  }

  // ---- Capabilities before use ------------------------------------------------------------

  /** `!value` */
  predicate Falsy<N>(js: Numbers<N>, v: Value<N>)
  {
    match v
    case Num(n) => js.falsy(n)
    case Word(s) => s == ""
    case True => false
    case False => true
    case Undefined => true
  }

  /** `usedtx` becomes 1; the loop over the parameters ends at the first falsy one. */
  function Normalise<N>(js: Numbers<N>, ps: seq<Parameter<N>>): seq<Parameter<N>>
  {
    if ps == [] || Falsy(js, ps[0].value) then ps
    else [NormaliseOne(js, ps[0])] + Normalise(js, ps[1..])
  }

  function NormaliseOne<N>(js: Numbers<N>, p: Parameter<N>): Parameter<N>
  {
    if p.key == "usedtx" then Parameter("usedtx", Num(js.one)) else p
  }

  function Ready<N>(js: Numbers<N>, cap: Capability<N>): Capability<N>
  {
    cap.(parameters := Normalise(js, cap.parameters))
  }

  function AllReady<N>(js: Numbers<N>, caps: seq<Capability<N>>): seq<Capability<N>>
  {
    seq(|caps|, i requires 0 <= i < |caps| => Ready(js, caps[i]))
  }

  /** A parameter is rewritten exactly if it is a true `usedtx` with no falsy parameter before it. */
  lemma {:induction false} NormalisedIff<N>(js: Numbers<N>, ps: seq<Parameter<N>>, i: nat)
    requires i < |ps|
    ensures |Normalise(js, ps)| == |ps| && Normalise(js, ps)[i].key == ps[i].key
    ensures ps[i].key == "usedtx" && (forall j :: 0 <= j <= i ==> !Falsy(js, ps[j].value))
            ==> Normalise(js, ps)[i].value == Num(js.one)
    ensures ps[i].key != "usedtx" || (exists j :: 0 <= j <= i && Falsy(js, ps[j].value))
            ==> Normalise(js, ps)[i].value == ps[i].value
  {
    if !Falsy(js, ps[0].value) {
      if i > 0 {
        NormalisedIff(js, ps[1..], i - 1);
        assert forall j :: 0 <= j < i ==> ps[1..][j] == ps[j + 1];
        if j :| 0 <= j <= i && Falsy(js, ps[j].value) {
          assert ps[1..][j - 1] == ps[j];
        }
      } else if |ps| > 1 {
        NormalisedIff(js, ps[1..], 0);
      }
    }
  }

  // ---- The fmtp configs -------------------------------------------------------------------

  function WithPayload(rs: seq<Rtp>, payload: nat): (found: Option<Rtp>)
    ensures found.Some? ==> found.value in rs && found.value.payload == payload
    ensures found.None? ==> payload !in Payloads(rs)
  {
    if rs == [] then None
    else if rs[0].payload == payload then Some(rs[0])
    else
      assert Payloads(rs) == [rs[0].payload] + Payloads(rs[1..]);
      WithPayload(rs[1..], payload)
  }

  function FirstOpus(rs: seq<Rtp>): (found: Option<Rtp>)
    ensures found.Some? ==> found.value in rs && Lower(found.value.codec) == "opus"
    ensures found.None? ==> forall r :: r in rs ==> Lower(r.codec) != "opus"
  {
    if rs == [] then None
    else if Lower(rs[0].codec) == "opus" then Some(rs[0])
    else FirstOpus(rs[1..])
  }

  /** The first capability that matches the codec. */
  function CapabilityFor<N(==)>(js: Numbers<N>, caps: seq<Capability<N>>, r: Rtp, fmtp: seq<FmtpLine>)
      : (found: Option<Capability<N>>)
    ensures found.Some? ==> found.value in caps && Matches(js, found.value, r, fmtp)
  {
    if caps == [] then None
    else if Find(js, caps[0], [r], fmtp).Some? then Some(caps[0])
    else CapabilityFor(js, caps[1..], r, fmtp)
  }

  function OpusCapability<N>(caps: seq<Capability<N>>): Option<Capability<N>>
  {
    if caps == [] then None
    else if Lower(caps[0].name) == "opus" then Some(caps[0])
    else OpusCapability(caps[1..])
  }

  /** The first opus capability sets `usedtx` to false. */
  predicate DtxOff<N>(caps: seq<Capability<N>>)
  {
    match OpusCapability(caps)
    case None => false
    case Some(c) => var ps := Properties(c.parameters); "usedtx" in ps && ps["usedtx"].False?
  }

  /** The config from the capability that applies to a line, or its own. */
  function BaseConfig<N(==)>(js: Numbers<N>, caps: seq<Capability<N>>, sorted: seq<Rtp>, fmtp: seq<FmtpLine>,
                             line: FmtpLine): string
  {
    match WithPayload(sorted, line.payload)
    case None => line.config
    case Some(r) =>
      match CapabilityFor(js, caps, r, fmtp)
      case None => line.config
      case Some(c) => if c.parameters == [] then line.config else Write(js, c.parameters)
  }

  function WithDtx(sorted: seq<Rtp>, off: bool, payload: nat, config: string): string
  {
    var opus := FirstOpus(sorted);
    if opus.None? || off || opus.value.payload != payload || Includes(config, "usedtx") then config
    else if |config| > 0 then config + ";usedtx=1"
    else "usedtx=1"
  }

  function NewLine<N(==)>(js: Numbers<N>, caps: seq<Capability<N>>, sorted: seq<Rtp>, fmtp: seq<FmtpLine>,
                          line: FmtpLine): FmtpLine
  {
    line.(config := WithDtx(sorted, DtxOff(caps), line.payload, BaseConfig(js, caps, sorted, fmtp, line)))
  }

  /** Of several lines, codecs or capabilities the first one counts. */
  lemma {:induction false} FirstConfig(fmtp: seq<FmtpLine>, payload: nat, i: nat)
    requires i < |fmtp| && fmtp[i].payload == payload && forall j :: 0 <= j < i ==> fmtp[j].payload != payload
    ensures Config(fmtp, payload) == fmtp[i].config
  {
    if i > 0 {
      FirstConfig(fmtp[1..], payload, i - 1);
    }
  }

  lemma {:induction false} FirstFound<N>(js: Numbers<N>, cap: Capability<N>, rtp: seq<Rtp>, fmtp: seq<FmtpLine>, i: nat)
    requires i < |rtp| && Matches(js, cap, rtp[i], fmtp) && forall j :: 0 <= j < i ==> !Matches(js, cap, rtp[j], fmtp)
    ensures Find(js, cap, rtp, fmtp) == Some(rtp[i])
  {
    if i > 0 {
      FirstFound(js, cap, rtp[1..], fmtp, i - 1);
    }
  }

  lemma {:induction false} FirstCapability<N>(js: Numbers<N>, caps: seq<Capability<N>>, r: Rtp,
                                              fmtp: seq<FmtpLine>, i: nat)
    requires i < |caps| && Matches(js, caps[i], r, fmtp) && forall j :: 0 <= j < i ==> !Matches(js, caps[j], r, fmtp)
    ensures CapabilityFor(js, caps, r, fmtp) == Some(caps[i])
  {
    assert r in [r];
    if i > 0 {
      assert forall x :: x in [r] ==> x == r;
      FirstCapability(js, caps[1..], r, fmtp, i - 1);
    }
  }

  lemma {:induction false} FirstOpusCapability<N>(caps: seq<Capability<N>>, i: nat)
    requires i < |caps| && Lower(caps[i].name) == "opus" && forall j :: 0 <= j < i ==> Lower(caps[j].name) != "opus"
    ensures OpusCapability(caps) == Some(caps[i])
  {
    if i > 0 {
      FirstOpusCapability(caps[1..], i - 1);
    }
  }

  /** The first `n` turns of the loop: every turn matches against the lines as they are by then. */
  function Rewritten<N(==)>(js: Numbers<N>, caps: seq<Capability<N>>, sorted: seq<Rtp>, fmtp: seq<FmtpLine>,
                            n: nat): (after: seq<FmtpLine>)
    requires n <= |fmtp|
    ensures |after| == |fmtp|
    ensures forall i :: 0 <= i < |fmtp| ==> after[i].payload == fmtp[i].payload
    ensures forall i :: n <= i < |fmtp| ==> after[i] == fmtp[i]
  {
    if n == 0 then fmtp else
    var before := Rewritten(js, caps, sorted, fmtp, n - 1);
    before[n - 1 := NewLine(js, caps, sorted, before, before[n - 1])]
  }

  ghost predicate OneLineEach(fmtp: seq<FmtpLine>)
  {
    forall i, j :: 0 <= i < j < |fmtp| ==> fmtp[i].payload != fmtp[j].payload
  }

  lemma {:induction false} ConfigAt(fmtp: seq<FmtpLine>, i: nat)
    requires OneLineEach(fmtp) && i < |fmtp|
    ensures Config(fmtp, fmtp[i].payload) == fmtp[i].config
  {
    if i > 0 {
      assert OneLineEach(fmtp[1..]);
      ConfigAt(fmtp[1..], i - 1);
      assert fmtp[1..][i - 1] == fmtp[i];
    }
  }

  /** Matching looks at no other line. */
  lemma {:induction false} SameCapability<N>(js: Numbers<N>, caps: seq<Capability<N>>, r: Rtp,
                                             fmtp: seq<FmtpLine>, other: seq<FmtpLine>)
    requires Config(fmtp, r.payload) == Config(other, r.payload)
    ensures CapabilityFor(js, caps, r, fmtp) == CapabilityFor(js, caps, r, other)
  {
    if caps != [] {
      assert Matches(js, caps[0], r, fmtp) <==> Matches(js, caps[0], r, other);
      assert forall x :: x in [r] ==> x == r;
      assert Find(js, caps[0], [r], fmtp).Some? <==> Matches(js, caps[0], r, fmtp);
      assert Find(js, caps[0], [r], other).Some? <==> Matches(js, caps[0], r, other);
      SameCapability(js, caps[1..], r, fmtp, other);
    }
  }

  /** Every line rewritten as if it were the first one. */
  function Alone<N(==)>(js: Numbers<N>, caps: seq<Capability<N>>, sorted: seq<Rtp>, fmtp: seq<FmtpLine>)
      : (lines: seq<FmtpLine>)
    ensures |lines| == |fmtp|
    ensures forall i :: 0 <= i < |fmtp| ==> lines[i] == NewLine(js, caps, sorted, fmtp, fmtp[i])
  {
    seq(|fmtp|, i requires 0 <= i < |fmtp| => NewLine(js, caps, sorted, fmtp, fmtp[i]))
  }

  /** With one line for each payload type, what a line becomes does not depend on the lines rewritten before it. */
  lemma EachLineAlone<N>(js: Numbers<N>, caps: seq<Capability<N>>, sorted: seq<Rtp>, fmtp: seq<FmtpLine>)
    requires OneLineEach(fmtp)
    ensures Rewritten(js, caps, sorted, fmtp, |fmtp|) == Alone(js, caps, sorted, fmtp)
  {
    FirstLinesAlone(js, caps, sorted, fmtp, |fmtp|);
  }

  lemma {:induction false} FirstLinesAlone<N>(js: Numbers<N>, caps: seq<Capability<N>>, sorted: seq<Rtp>,
                                              fmtp: seq<FmtpLine>, n: nat)
    requires OneLineEach(fmtp) && n <= |fmtp|
    ensures Rewritten(js, caps, sorted, fmtp, n)[..n] == Alone(js, caps, sorted, fmtp)[..n]
  {
    if n > 0 {
      FirstLinesAlone(js, caps, sorted, fmtp, n - 1);
      LastRewritten(js, caps, sorted, fmtp, n - 1);
      OneMoreEqual(Rewritten(js, caps, sorted, fmtp, n - 1), Alone(js, caps, sorted, fmtp), n - 1);
    }
  }

  lemma OneMoreEqual(before: seq<FmtpLine>, lines: seq<FmtpLine>, i: nat)
    requires i < |before| == |lines| && before[..i] == lines[..i]
    ensures before[i := lines[i]][..i + 1] == lines[..i + 1]
  {
    var after := before[i := lines[i]];
    forall k | 0 <= k <= i
      ensures after[k] == lines[k]
    {
      if k < i {
        assert before[..i][k] == lines[..i][k];
      }
    }
  }

  /** The last turn so far rewrites one line, as if it were the first turn. */
  lemma LastRewritten<N>(js: Numbers<N>, caps: seq<Capability<N>>, sorted: seq<Rtp>, fmtp: seq<FmtpLine>, i: nat)
    requires OneLineEach(fmtp) && i < |fmtp|
    ensures Rewritten(js, caps, sorted, fmtp, i + 1)
         == Rewritten(js, caps, sorted, fmtp, i)[i := Alone(js, caps, sorted, fmtp)[i]]
  {
    LastLineAlone(js, caps, sorted, fmtp, Rewritten(js, caps, sorted, fmtp, i), i);
  }

  lemma LastLineAlone<N>(js: Numbers<N>, caps: seq<Capability<N>>, sorted: seq<Rtp>, fmtp: seq<FmtpLine>,
                         before: seq<FmtpLine>, i: nat)
    requires OneLineEach(fmtp) && OneLineEach(before) && i < |fmtp| == |before| && before[i] == fmtp[i]
    ensures NewLine(js, caps, sorted, before, before[i]) == NewLine(js, caps, sorted, fmtp, fmtp[i])
  {
    ConfigAt(fmtp, i);
    ConfigAt(before, i);
    SameLine(js, caps, sorted, fmtp, before, fmtp[i]);
  }

  lemma SameLine<N>(js: Numbers<N>, caps: seq<Capability<N>>, sorted: seq<Rtp>, fmtp: seq<FmtpLine>,
                    other: seq<FmtpLine>, line: FmtpLine)
    requires Config(fmtp, line.payload) == Config(other, line.payload)
    ensures NewLine(js, caps, sorted, fmtp, line) == NewLine(js, caps, sorted, other, line)
  {
    var found := WithPayload(sorted, line.payload);
    if found.Some? {
      SameCapability(js, caps, found.value, fmtp, other);
    }
  }

  /** Capability `c`, with parameters that a config can hold, applies to line `i`. */
  ghost predicate Applies<N(!new)>(js: Numbers<N>, caps: seq<Capability<N>>, sorted: seq<Rtp>, fmtp: seq<FmtpLine>,
                                   i: nat, c: Capability<N>)
  {
    && Faithful(js) && OneLineEach(fmtp) && i < |fmtp|
    && (var r := WithPayload(sorted, fmtp[i].payload);
        r.Some? && CapabilityFor(js, caps, r.value, fmtp) == Some(c))
    && c.parameters != [] && Writable(js, c.parameters)
  }

  /** The line is the opus line, and `usedtx=1` is appended to its config. */
  predicate Appends(sorted: seq<Rtp>, off: bool, payload: nat, config: string)
  {
    var opus := FirstOpus(sorted);
    opus.Some? && !off && opus.value.payload == payload && !Includes(config, "usedtx")
  }

  /** What an appended `usedtx=1` adds to what is read. */
  lemma ReadsAppended<N(!new)>(js: Numbers<N>, sorted: seq<Rtp>, off: bool, payload: nat, config: string)
    requires Faithful(js)
    ensures Parse(js, WithDtx(sorted, off, payload, config)) ==
            if Appends(sorted, off, payload, config) then Parse(js, config)["usedtx" := Num(js.one)]
            else Parse(js, config)
  {
    if Appends(sorted, off, payload, config) {
      ReadsWithDtx(js, config);
    }
  }

  lemma ReadsWithDtx<N(!new)>(js: Numbers<N>, config: string)
    requires Faithful(js)
    ensures Parse(js, if |config| > 0 then config + ";usedtx=1" else "usedtx=1")
         == Parse(js, config)["usedtx" := Num(js.one)]
  {
    if config == "" {
      ReadsOnly(js);
    } else {
      assert config + ";usedtx=1" == config + ";" + "usedtx=1";
      ReadsOneMore(js, config, "usedtx=1");
    }
  }

  lemma ReadsOnly<N(!new)>(js: Numbers<N>)
    requires Faithful(js)
    ensures Parse(js, "usedtx=1") == Parse(js, "")["usedtx" := Num(js.one)]
  {
    ReadsOne(js, map[]);
    ParseAppend(js, "", "usedtx=1");
    NothingToRead(js);
  }

  lemma ReadsOneMore<N(!new)>(js: Numbers<N>, config: string, part: string)
    requires Faithful(js) && part == "usedtx=1"
    ensures Parse(js, config + ";" + part) == Parse(js, config)["usedtx" := Num(js.one)]
  {
    ReadsOne(js, Parse(js, config));
    ParseAppend(js, config, part);
  }

  lemma ReadsOne<N(!new)>(js: Numbers<N>, acc: map<string, Value<N>>)
    requires Faithful(js)
    ensures ReadOne(js, acc, "usedtx=1") == acc["usedtx" := Num(js.one)] && ';' !in "usedtx=1"
  {
    var one := Parameter("usedtx", Num(js.one));
    assert Shown(js, one.value) == "1" && one.key + "=" + "1" == "usedtx=1";
    ReadWritten(js, acc, one);
  }

  lemma NothingToRead<N>(js: Numbers<N>)
    ensures Parse(js, "") == map[]
  {
    ReadAllConcat(js, [], "");
    assert [] + [""] == [""];
  }

  /** A parameter that is not false is written, or left out because its key is in the text already. */
  lemma {:induction false} KeptIsIncluded<N>(js: Numbers<N>, ps: seq<Parameter<N>>, key: string)
    requires key in Kept(ps)
    ensures Includes(Write(js, ps), key)
    decreases |ps|
  {
    var before, p := ps[..|ps| - 1], ps[|ps| - 1];
    var config, value := Write(js, before), Shown(js, p.value);
    if key in Kept(before) {
      KeptIsIncluded(js, before, key);
      if Write(js, ps) != config {
        PrefixIncludes(config, key, Write(js, ps)[|config|..]);
        assert config + Write(js, ps)[|config|..] == Write(js, ps);
      }
    } else if !Includes(config, key) {
      AppendedIsIncluded(config + ";", key);
      PrefixIncludes(config + ";" + key, key, "=" + value);
      assert config + ";" + key + "=" + value == config + ";" + key + ("=" + value);
      PrefixIncludes(key, key, "=" + value);
      assert key + "=" + value == key + ("=" + value);
    }
  }

  /**
   The rewritten line reads as the capability's parameters, with `usedtx` at 1 if that is appended,
   exactly if none of the parameters is shadowed.
   */
  lemma ReadsAsCapabilityIff<N(!new)>(js: Numbers<N>, caps: seq<Capability<N>>, sorted: seq<Rtp>,
                                      fmtp: seq<FmtpLine>, i: nat, c: Capability<N>)
    requires Applies(js, caps, sorted, fmtp, i, c)
    ensures var (after, payload) := (Rewritten(js, caps, sorted, fmtp, |fmtp|), fmtp[i].payload);
            var kept := Kept(c.parameters);
            var appends := Appends(sorted, DtxOff(caps), payload, Write(js, c.parameters));
            && (appends ==> "usedtx" !in kept)
            && (GetParameters(js, after, payload) == (if appends then kept["usedtx" := Num(js.one)] else kept)
                <==> forall k :: 0 <= k < |c.parameters| ==> !Shadowed(js, c.parameters, k))
  {
    var after := Rewritten(js, caps, sorted, fmtp, |fmtp|);
    EachLineAlone(js, caps, sorted, fmtp);
    ConfigAt(after, i);
    var base := Write(js, c.parameters);
    assert after[i].config == WithDtx(sorted, DtxOff(caps), fmtp[i].payload, base);
    ReadsAppended(js, sorted, DtxOff(caps), fmtp[i].payload, base);
    ParseWrite(js, c.parameters);
    WrittenIsKeptIff(js, c.parameters);
    if Appends(sorted, DtxOff(caps), fmtp[i].payload, base) {
      if "usedtx" in Kept(c.parameters) {
        KeptIsIncluded(js, c.parameters, "usedtx");
        assert false;
      }
      SameWith(Written(js, c.parameters), Kept(c.parameters), "usedtx", Num(js.one));
    }
  }

  lemma SameWith<K, V>(a: map<K, V>, b: map<K, V>, key: K, value: V)
    requires key !in a && key !in b
    ensures a[key := value] == b[key := value] <==> a == b
  {
    assert a == a[key := value] - {key};
    assert b == b[key := value] - {key};
  }

  lemma {:induction false} NothingReadIsFalse<N>(js: Numbers<N>, parts: seq<string>)
    ensures forall k :: k in ReadAll(js, parts) ==> !ReadAll(js, parts)[k].False?
    decreases |parts|
  {
    if parts != [] {
      NothingReadIsFalse(js, parts[..|parts| - 1]);
    }
  }

  lemma {:induction false} NothingLeftOut<N>(ps: seq<Parameter<N>>)
    requires forall i, j :: 0 <= i < j < |ps| ==> ps[i].key != ps[j].key
    requires forall k :: k in Properties(ps) ==> !Properties(ps)[k].False?
    ensures Kept(ps) == Properties(ps)
    ensures forall k :: k in Properties(ps) ==> exists i :: 0 <= i < |ps| && ps[i].key == k
    decreases |ps|
  {
    if ps != [] {
      var before, p := ps[..|ps| - 1], ps[|ps| - 1];
      KeysOf(before);
      forall k | k in Properties(before)
        ensures !Properties(before)[k].False?
      {
        var i :| 0 <= i < |before| && before[i].key == k;
        assert ps[i].key == k;
        assert Properties(ps)[k] == Properties(before)[k];
      }
      NothingLeftOut(before);
      assert p.key in Properties(ps);
      KeysOf(ps);
    }
  }

  lemma {:induction false} KeysOf<N>(ps: seq<Parameter<N>>)
    ensures forall k :: k in Properties(ps) <==> exists i :: 0 <= i < |ps| && ps[i].key == k
    decreases |ps|
  {
    if ps != [] {
      var before, p := ps[..|ps| - 1], ps[|ps| - 1];
      KeysOf(before);
      assert ps == before + [p];
      assert ps[|before|].key == p.key;
      forall k | k in Properties(before)
        ensures exists i :: 0 <= i < |ps| && ps[i].key == k
      {
        var i :| 0 <= i < |before| && before[i].key == k;
        assert ps[i].key == k;
      }
    }
  }

  /**
   A matched video line keeps its meaning, exactly if no parameter of the capability is shadowed
   and `usedtx` is not appended.
   */
  lemma VideoKeepsMeaningIff<N(!new)>(js: Numbers<N>, caps: seq<Capability<N>>, sorted: seq<Rtp>,
                                      fmtp: seq<FmtpLine>, i: nat, c: Capability<N>)
    requires Applies(js, caps, sorted, fmtp, i, c) && c.contentType.Video?
    ensures var (after, payload) := (Rewritten(js, caps, sorted, fmtp, |fmtp|), fmtp[i].payload);
            GetParameters(js, after, payload) == GetParameters(js, fmtp, payload)
            <==> && !Appends(sorted, DtxOff(caps), payload, Write(js, c.parameters))
                 && forall k :: 0 <= k < |c.parameters| ==> !Shadowed(js, c.parameters, k)
  {
    ReadsAsCapabilityIff(js, caps, sorted, fmtp, i, c);
    var (after, payload) := (Rewritten(js, caps, sorted, fmtp, |fmtp|), fmtp[i].payload);
    assert GetParameters(js, fmtp, payload) == Properties(c.parameters);
    NothingReadIsFalse(js, SplitOn(Config(fmtp, payload), ';'));
    NothingLeftOut(c.parameters);
    if Appends(sorted, DtxOff(caps), payload, Write(js, c.parameters)) {
      AppendedIsRead(js, caps, sorted, fmtp, i);
    }
  }

  lemma {:induction false} AppendedIsIncluded(text: string, part: string)
    ensures Includes(text + part, part)
  {
    if text == "" {
      assert text + part == part;
    } else {
      AppendedIsIncluded(text[1..], part);
      assert (text + part)[1..] == text[1..] + part;
    }
  }

  lemma {:induction false} PrefixIncludes(text: string, part: string, more: string)
    requires Includes(text, part)
    ensures Includes(text + more, part)
  {
    if !(part <= text) {
      PrefixIncludes(text[1..], part, more);
      assert (text + more)[1..] == text[1..] + more;
    } else {
      assert part <= text + more;
    }
  }

  lemma AppendedIsRead<N(!new)>(js: Numbers<N>, caps: seq<Capability<N>>, sorted: seq<Rtp>, fmtp: seq<FmtpLine>, i: nat)
    requires Faithful(js) && OneLineEach(fmtp) && i < |fmtp|
    requires Appends(sorted, DtxOff(caps), fmtp[i].payload, BaseConfig(js, caps, sorted, fmtp, fmtp[i]))
    ensures "usedtx" in GetParameters(js, Rewritten(js, caps, sorted, fmtp, |fmtp|), fmtp[i].payload)
  {
    EachLineAlone(js, caps, sorted, fmtp);
    ConfigAt(Rewritten(js, caps, sorted, fmtp, |fmtp|), i);
    ReadsAppended(js, sorted, DtxOff(caps), fmtp[i].payload, BaseConfig(js, caps, sorted, fmtp, fmtp[i]));
  }

  /** The line leads to `usedtx` being read: the word is not in its base text, or is in it as that parameter. */
  ghost predicate GivesDtx<N(!new)>(js: Numbers<N>, caps: seq<Capability<N>>, sorted: seq<Rtp>, fmtp: seq<FmtpLine>,
                                    line: FmtpLine)
  {
    var base := BaseConfig(js, caps, sorted, fmtp, line);
    !Includes(base, "usedtx") || "usedtx" in Parse(js, base)
  }

  lemma OpusLineHasDtxIff<N(!new)>(js: Numbers<N>, caps: seq<Capability<N>>, sorted: seq<Rtp>,
                                   fmtp: seq<FmtpLine>, i: nat)
    requires Faithful(js) && OneLineEach(fmtp) && i < |fmtp| && !DtxOff(caps)
    requires FirstOpus(sorted).Some? && FirstOpus(sorted).value.payload == fmtp[i].payload
    ensures "usedtx" in GetParameters(js, Rewritten(js, caps, sorted, fmtp, |fmtp|), fmtp[i].payload)
            <==> GivesDtx(js, caps, sorted, fmtp, fmtp[i])
  {
    EachLineAlone(js, caps, sorted, fmtp);
    ConfigAt(Rewritten(js, caps, sorted, fmtp, |fmtp|), i);
    ReadsAppended(js, sorted, DtxOff(caps), fmtp[i].payload, BaseConfig(js, caps, sorted, fmtp, fmtp[i]));
  }

  lemma {:induction false} NoConfig(fmtp: seq<FmtpLine>, payload: nat)
    requires forall i :: 0 <= i < |fmtp| ==> fmtp[i].payload != payload
    ensures Config(fmtp, payload) == ""
  {
    if fmtp != [] {
      NoConfig(fmtp[1..], payload);
    }
  }

  /**
   Unless it was set to false, opus is read as having `usedtx` in the end, exactly if it has an
   fmtp line, and the text of that does not contain the word or does so as that parameter.
   */
  lemma OpusHasDtxIff<N(!new)>(js: Numbers<N>, caps: seq<Capability<N>>, sorted: seq<Rtp>, fmtp: seq<FmtpLine>)
    requires Faithful(js) && OneLineEach(fmtp) && !DtxOff(caps) && FirstOpus(sorted).Some?
    ensures var opus := FirstOpus(sorted).value;
            "usedtx" in GetParameters(js, Rewritten(js, caps, sorted, fmtp, |fmtp|), opus.payload)
            <==> exists i :: 0 <= i < |fmtp| && fmtp[i].payload == opus.payload
                             && GivesDtx(js, caps, sorted, fmtp, fmtp[i])
  {
    var payload := FirstOpus(sorted).value.payload;
    if i :| 0 <= i < |fmtp| && fmtp[i].payload == payload {
      OpusLineHasDtxIff(js, caps, sorted, fmtp, i);
    } else {
      NoConfig(Rewritten(js, caps, sorted, fmtp, |fmtp|), payload);
      NothingToRead(js);
    }
  }

  /** A line that fails it: the word is part of another key. */
  lemma OpusMissesDtx<N(!new)>(js: Numbers<N>)
    requires Faithful(js)
    ensures var (rtp, fmtp) := ([Rtp(111, "opus")], [FmtpLine(111, "x-usedtx=1")]);
            && !DtxOff<N>([])
            && "usedtx" !in GetParameters(js, Rewritten(js, [], Sorted(js, [], rtp, fmtp), fmtp, 1), 111)
  {
    var (rtp, fmtp, config) := ([Rtp(111, "opus")], [FmtpLine(111, "x-usedtx=1")], "x-usedtx=1");
    var sorted := Sorted(js, [], rtp, fmtp);
    assert Rest(rtp, []) == rtp by {
      assert Rest(rtp[1..], []) == [];
    }
    assert sorted == [] + rtp == rtp;
    assert Lower("opus") == "opus";
    AppendedIsIncluded("x-", "usedtx");
    PrefixIncludes("x-" + "usedtx", "usedtx", "=1");
    assert config == "x-" + "usedtx" + "=1";
    ReadsOther(js, config);
    OpusLineHasDtxIff(js, [], sorted, fmtp, 0);
  }

  /** An m-line that fails it: there is no fmtp line, and none is added. */
  lemma OpusWithoutLine<N>(js: Numbers<N>)
    ensures var rtp := [Rtp(111, "opus")];
            "usedtx" !in GetParameters(js, Rewritten(js, [], Sorted(js, [], rtp, []), [], 0), 111)
  {
    NothingToRead(js);
  }

  lemma ReadsOther<N(!new)>(js: Numbers<N>, config: string)
    requires Faithful(js) && config == "x-usedtx=1"
    ensures "usedtx" !in Parse(js, config)
  {
    var p := Parameter("x-usedtx", Num(js.one));
    assert p.key + "=" + Shown(js, p.value) == config;
    ReadWritten(js, map[], p);
    ParseAppend(js, "", config);
  }

  /** If the first opus capability sets it to false, the opus line does not set it. */
  lemma OpusHasNoDtx<N(!new)>(js: Numbers<N>, caps: seq<Capability<N>>, sorted: seq<Rtp>, fmtp: seq<FmtpLine>, i: nat)
    requires Faithful(js) && OneLineEach(fmtp) && i < |fmtp|
    requires WithPayload(sorted, fmtp[i].payload) == FirstOpus(sorted) && FirstOpus(sorted).Some?
    requires DtxOff(caps)
    requires var c := OpusCapability(caps).value; c.contentType.Audio? && Writable(js, c.parameters)
    ensures "usedtx" !in GetParameters(js, Rewritten(js, caps, sorted, fmtp, |fmtp|), fmtp[i].payload)
  {
    var after := Rewritten(js, caps, sorted, fmtp, |fmtp|);
    EachLineAlone(js, caps, sorted, fmtp);
    ConfigAt(after, i);
    var (c, opus) := (OpusCapability(caps).value, FirstOpus(sorted).value);
    OpusTakesOpus(js, caps, opus, fmtp);
    KeysOf(c.parameters);
    assert after[i].config == Write(js, c.parameters);
    ParseWrite(js, c.parameters);
    FalseIsNotWritten(js, c.parameters, "usedtx");
  }

  lemma {:induction false} OpusTakesOpus<N>(js: Numbers<N>, caps: seq<Capability<N>>, opus: Rtp, fmtp: seq<FmtpLine>)
    requires Lower(opus.codec) == "opus" && OpusCapability(caps).Some?
    requires OpusCapability(caps).value.contentType.Audio?
    ensures CapabilityFor(js, caps, opus, fmtp) == OpusCapability(caps)
  {
    assert opus in [opus];
    if Lower(caps[0].name) == "opus" {
      assert caps[0].name != "";
      assert Matches(js, caps[0], opus, fmtp);
    } else {
      assert forall r :: r in [opus] ==> !Matches(js, caps[0], r, fmtp);
      OpusTakesOpus(js, caps[1..], opus, fmtp);
    }
  }

  lemma {:induction false} FalseIsNotWritten<N>(js: Numbers<N>, ps: seq<Parameter<N>>, key: string)
    requires forall i, j :: 0 <= i < j < |ps| ==> ps[i].key != ps[j].key
    requires key in Properties(ps) ==> Properties(ps)[key].False?
    ensures key !in Written(js, ps)
    decreases |ps|
  {
    if ps != [] {
      var before, p := ps[..|ps| - 1], ps[|ps| - 1];
      KeysOf(before);
      if key in Properties(before) {
        var i :| 0 <= i < |before| && before[i].key == key;
        assert ps[i].key == key;
        assert Properties(ps)[key] == Properties(before)[key];
      }
      FalseIsNotWritten(js, before, key);
      assert p.key == key ==> Properties(ps)[key] == p.value;
    }
  }

  // ---- The operation ----------------------------------------------------------------------

  /** `Object.entries(parameters).forEach`, writing a config. */
  method WriteConfig<N>(js: Numbers<N>, ps: seq<Parameter<N>>) returns (config: string)
    ensures config == Write(js, ps)
  {
    config := "";
    for i := 0 to |ps|
      invariant config == Write(js, ps[..i])
    {
      assert ps[..i + 1][..i] == ps[..i];
      config := WriteOne(js, config, ps[i]);
    }
    assert ps[..|ps|] == ps;
  }

  lemma NormaliseFrom<N>(js: Numbers<N>, done: seq<Parameter<N>>, ps: seq<Parameter<N>>, i: nat)
    requires i < |ps|
    ensures done + Normalise(js, ps[i..]) ==
            if Falsy(js, ps[i].value) then done + ps[i..]
            else done + [NormaliseOne(js, ps[i])] + Normalise(js, ps[i + 1..])
  {
    assert ps[i..][1..] == ps[i + 1..];
  }

  /** One capability's parameters, up to the first falsy one. */
  method NormaliseParameters<N>(js: Numbers<N>, ps: seq<Parameter<N>>) returns (done: seq<Parameter<N>>)
    ensures done == Normalise(js, ps)
  {
    done := [];
    for i := 0 to |ps|
      invariant done + Normalise(js, ps[i..]) == Normalise(js, ps)
    {
      NormaliseFrom(js, done, ps, i);
      if Falsy(js, ps[i].value) {
        return done + ps[i..];
      }
      done := done + [NormaliseOne(js, ps[i])];
    }
    assert ps[|ps|..] == [];
  }

  method NormaliseAll<N>(js: Numbers<N>, capabilities: array<Capability<N>>)
    modifies capabilities
    ensures capabilities[..] == AllReady(js, old(capabilities[..]))
  {
    for i := 0 to capabilities.Length
      invariant forall j :: 0 <= j < i ==> capabilities[j] == Ready(js, old(capabilities[j]))
      invariant forall j :: i <= j < capabilities.Length ==> capabilities[j] == old(capabilities[j])
    {
      var ready := NormaliseParameters(js, capabilities[i].parameters);
      capabilities[i] := capabilities[i].(parameters := ready);
    }
  }

  class Media {
    const rtp: seq<Rtp>
    const fmtp: array<FmtpLine>
    var payloads: seq<nat>

    constructor (rtp: seq<Rtp>, fmtp: array<FmtpLine>)
      ensures this.rtp == rtp && this.fmtp == fmtp && payloads == Payloads(rtp)
    {
      this.rtp, this.fmtp, payloads := rtp, fmtp, Payloads(rtp);
    }

    /** `applyCodecCapabilities`, for the m-line found. */
    method ApplyCodecCapabilities<N(==)>(js: Numbers<N>, capabilities: array<Capability<N>>)
      modifies this`payloads, fmtp, capabilities
      ensures capabilities[..] == AllReady(js, old(capabilities[..]))
      ensures var sorted := Sorted(js, capabilities[..], rtp, old(fmtp[..]));
              && payloads == Payloads(sorted)
              && fmtp[..] == Rewritten(js, capabilities[..], sorted, old(fmtp[..]), fmtp.Length)
    {
      NormaliseAll(js, capabilities);
      var caps := capabilities[..];
      var sorted := Sorted(js, caps, rtp, fmtp[..]);
      RewriteLines(js, caps, sorted);
      payloads := Payloads(sorted);
    }

    method RewriteLines<N(==)>(js: Numbers<N>, caps: seq<Capability<N>>, sorted: seq<Rtp>)
      modifies fmtp
      ensures fmtp[..] == Rewritten(js, caps, sorted, old(fmtp[..]), fmtp.Length)
    {
      for i := 0 to fmtp.Length
        invariant fmtp[..] == Rewritten(js, caps, sorted, old(fmtp[..]), i)
      {
        ghost var lines := fmtp[..];
        var line := NextLine(js, caps, sorted, i);
        fmtp[i] := line;
        assert fmtp[..] == lines[i := line];
      }
    }

    method NextLine<N(==)>(js: Numbers<N>, caps: seq<Capability<N>>, sorted: seq<Rtp>, i: nat) returns (line: FmtpLine)
      requires i < fmtp.Length
      ensures line == NewLine(js, caps, sorted, fmtp[..], fmtp[i])
    {
      line := fmtp[i];
      var target := WithPayload(sorted, line.payload);
      if target.Some? {
        var capability := CapabilityFor(js, caps, target.value, fmtp[..]);
        if capability.Some? && |capability.value.parameters| > 0 {
          var config := WriteConfig(js, capability.value.parameters);
          line := line.(config := config);
        }
      }
      line := line.(config := WithDtx(sorted, DtxOff(caps), line.payload, line.config));
    }
  }
}
