/**
 Bringing the wanted video codec to the head of the sending parameters, in place
 (`_fixVideoCodecWithParametersOrder` of the SFU sender).
 */
module CodecSwap {
  import opened Util

  datatype Json =
    | Null
    | Bool(b: bool)
    | Num(n: int)
    | Str(s: string)
    | List(elements: seq<Json>)
    | Record(properties: map<string, Json>)

  /** The properties of a codec entry; `None` is a property that is present and undefined. */
  type Fields = map<string, Option<Json>>

  const PAYLOAD_TYPE := "payloadType"

  datatype Wanted = Wanted(mimeType: string, parameters: Option<map<string, Json>>)

  // ---- What the swap does to the contents -------------------------------------------------

  function Get(f: Fields, key: string): Option<Json>
  {
    if key in f then f[key] else None
  }

  /** `findCodecWithParameters` */
  predicate Matches(wanted: Wanted, f: Fields)
  {
    && Get(f, "mimeType") == Some(Str(wanted.mimeType))
    && (wanted.parameters.None? || wanted.parameters.value == map[]
        || Get(f, "parameters") == Some(Record(wanted.parameters.value)))
  }

  /**
   An entry of another MIME type does not match; one of the wanted type does if no parameters are
   wanted, and otherwise not if its own differ in any of them.
   */
  lemma MatchesWhen(wanted: Wanted, f: Fields)
    ensures Get(f, "mimeType") != Some(Str(wanted.mimeType)) ==> !Matches(wanted, f)
    ensures Get(f, "mimeType") == Some(Str(wanted.mimeType)) && wanted.parameters in {None, Some(map[])}
            ==> Matches(wanted, f)
    ensures wanted.parameters.Some? && wanted.parameters.value != map[]
            && (match Get(f, "parameters")
                case Some(Record(own)) =>
                  exists key :: DiffersIn(own, wanted.parameters.value, key)
                case _ => true)
            ==> !Matches(wanted, f)
  {
  }

  predicate DiffersIn(own: map<string, Json>, wanted: map<string, Json>, key: string)
  {
    (key in own <==> key !in wanted) || (key in own && key in wanted && own[key] != wanted[key])
  }

  /** `codecs.find(...)`, as an index; the length if there is none. */
  function FindIndex(wanted: Wanted, codecs: seq<Fields>): (t: nat)
    ensures t <= |codecs|
    ensures t < |codecs| ==> Matches(wanted, codecs[t])
    ensures forall i :: 0 <= i < t ==> !Matches(wanted, codecs[i])
  {
    if codecs == [] || Matches(wanted, codecs[0]) then 0
    else
      var t := FindIndex(wanted, codecs[1..]);
      assert forall i :: 0 < i < |codecs| ==> codecs[i] == codecs[1..][i - 1];
      1 + t
  }

  /** `copyCodecExceptPayloadType` */
  function CopyInto(target: Fields, src: Fields): Fields
  {
    map key | key in target :: if key == PAYLOAD_TYPE then target[key] else Get(src, key)
  }

  function Swapped(wanted: Wanted, codecs: seq<Fields>): seq<Fields>
  {
    var t := FindIndex(wanted, codecs);
    if t == |codecs| then codecs
    else codecs[0 := CopyInto(codecs[0], codecs[t])][t := CopyInto(codecs[t], codecs[0])]
  }

  // ---- Properties -------------------------------------------------------------------------

  ghost function WithoutPayloadType(f: Fields): Fields
  {
    f - {PAYLOAD_TYPE}
  }

  /** The payload types stay where they are, and so does every entry but the head and the one found. */
  lemma PayloadTypesStay(wanted: Wanted, codecs: seq<Fields>, i: nat)
    requires i < |codecs|
    ensures var after := Swapped(wanted, codecs);
            && |after| == |codecs|
            && after[i].Keys == codecs[i].Keys
            && Get(after[i], PAYLOAD_TYPE) == Get(codecs[i], PAYLOAD_TYPE)
            && (i != 0 && i != FindIndex(wanted, codecs) ==> after[i] == codecs[i])
  {
  }

  /** Everything else is exchanged between the two, exactly if they have the same properties. */
  lemma ExchangedIff(wanted: Wanted, codecs: seq<Fields>)
    requires FindIndex(wanted, codecs) < |codecs|
    ensures var t := FindIndex(wanted, codecs);
            var after := Swapped(wanted, codecs);
            && WithoutPayloadType(after[0]) == WithoutPayloadType(codecs[t])
            && WithoutPayloadType(after[t]) == WithoutPayloadType(codecs[0])
            <==> WithoutPayloadType(codecs[0]).Keys == WithoutPayloadType(codecs[t]).Keys
  {
    var t := FindIndex(wanted, codecs);
    var after := Swapped(wanted, codecs);
    var (head, target) := (codecs[0], codecs[t]);
    if WithoutPayloadType(head).Keys == WithoutPayloadType(target).Keys {
      CopiedIsSource(head, target);
      CopiedIsSource(target, head);
      assert WithoutPayloadType(after[0]) == WithoutPayloadType(target);
      assert WithoutPayloadType(after[t]) == WithoutPayloadType(head);
    } else {
      assert WithoutPayloadType(after[0]).Keys == WithoutPayloadType(head).Keys;
    }
  }

  lemma CopiedIsSource(target: Fields, src: Fields)
    requires WithoutPayloadType(target).Keys == WithoutPayloadType(src).Keys
    ensures WithoutPayloadType(CopyInto(target, src)) == WithoutPayloadType(src)
  {
    var copied := WithoutPayloadType(CopyInto(target, src));
    assert copied.Keys == WithoutPayloadType(target).Keys;
    forall k | k in WithoutPayloadType(src)
      ensures k in copied && copied[k] == src[k]
    {
      assert k in WithoutPayloadType(target);
    }
  }

  ghost predicate HasPlaces(wanted: Wanted, f: Fields)
  {
    && "mimeType" in f
    && (wanted.parameters.None? || wanted.parameters.value == map[] || "parameters" in f)
  }

  /** The head matches in the end, exactly if it had the properties that are looked at. */
  lemma HeadMatchesIff(wanted: Wanted, codecs: seq<Fields>)
    requires FindIndex(wanted, codecs) < |codecs|
    ensures Matches(wanted, Swapped(wanted, codecs)[0]) <==> HasPlaces(wanted, codecs[0])
  {
  }

  /** Doing it again changes nothing. */
  lemma Idempotent(wanted: Wanted, codecs: seq<Fields>)
    requires codecs != [] ==> HasPlaces(wanted, codecs[0])
    ensures Swapped(wanted, Swapped(wanted, codecs)) == Swapped(wanted, codecs)
  {
    if FindIndex(wanted, codecs) < |codecs| {
      HeadMatchesIff(wanted, codecs);
      var after := Swapped(wanted, codecs);
      assert FindIndex(wanted, after) == 0;
      assert CopyInto(after[0], after[0]) == after[0];
    }
  }

  // ---- In place ---------------------------------------------------------------------------

  /** A value of a property; it can be shared between entries. */
  class Value {
    const json: Json

    constructor (json: Json)
      ensures this.json == json
    {
      this.json := json;
    }
  }

  type References = map<string, Value?>

  ghost function Contents(refs: References): Fields
  {
    map key | key in refs :: if refs[key] == null then None else Some(refs[key].json)
  }

  /** No property but the payload type is the same reference in both. */
  ghost predicate NothingShared(a: References, b: References)
  {
    forall k, l :: k in a && l in b && k != PAYLOAD_TYPE && l != PAYLOAD_TYPE && a[k] != null ==> a[k] != b[l]
  }

  /** What copying leaves, as references. */
  ghost predicate Copied(before: References, after: References, src: References)
  {
    && after.Keys == before.Keys
    && forall k :: k in after ==>
         after[k] == if k == PAYLOAD_TYPE then before[k] else if k in src then src[k] else null
  }

  /** New values with the same contents, without what is undefined. */
  ghost predicate SameContents(copy: References, refs: References)
  {
    && copy.Keys == (set k | k in refs && refs[k] != null)
    && forall k :: k in copy ==> copy[k] != null && copy[k].json == refs[k].json
  }

  lemma CopiedContents(before: References, after: References, src: References, original: References)
    requires Copied(before, after, src)
    requires src == original || SameContents(src, original)
    ensures Contents(after) == CopyInto(Contents(before), Contents(original))
  {
    forall k | k in after
      ensures Contents(after)[k] == CopyInto(Contents(before), Contents(original))[k]
    {
      assert k in Contents(before);
    }
  }

  class Entry {
    var fields: References

    constructor (fields: References)
      ensures this.fields == fields
    {
      this.fields := fields;
    }

    /** `copyCodecExceptPayloadType`: the references are copied, not what they refer to. */
    method CopyExceptPayloadType(src: References)
      modifies this
      ensures Copied(old(fields), fields, src)
    {
      var keys := fields.Keys;
      while keys != {}
        invariant keys <= fields.Keys == old(fields.Keys)
        invariant forall k :: k in keys ==> fields[k] == old(fields[k])
        invariant forall k :: k in fields && k !in keys ==>
                    fields[k] == if k == PAYLOAD_TYPE then old(fields[k]) else if k in src then src[k] else null
        decreases keys
      {
        var key :| key in keys;
        keys := keys - {key};
        if key == PAYLOAD_TYPE {
          continue;
        }
        fields := fields[key := if key in src then src[key] else null];
      }
    }

    method Matching(wanted: Wanted) returns (b: bool)
      ensures b == Matches(wanted, Contents(fields))
    {
      b := "mimeType" in fields && fields["mimeType"] != null && fields["mimeType"].json == Str(wanted.mimeType);
      if b && wanted.parameters.Some? && |wanted.parameters.value| > 0 {
        b := "parameters" in fields && fields["parameters"] != null
          && fields["parameters"].json == Record(wanted.parameters.value);
      }
    }
  }

  /** `JSON.parse(JSON.stringify(...))`: new values all the way, and undefined properties dropped. */
  method DeepCopy(refs: References) returns (copy: References)
    ensures SameContents(copy, refs)
    ensures forall k :: k in copy ==> fresh(copy[k])
  {
    copy := map[];
    var keys := refs.Keys;
    while keys != {}
      invariant keys <= refs.Keys
      invariant copy.Keys == set k | k in refs && k !in keys && refs[k] != null
      invariant forall k :: k in copy ==> copy[k] != null && fresh(copy[k]) && copy[k].json == refs[k].json
      decreases keys
    {
      var key :| key in keys;
      keys := keys - {key};
      if refs[key] != null {
        var value := new Value(refs[key].json);
        copy := copy[key := value];
      }
    }
  }

  ghost function AllContents(codecs: seq<Entry>): seq<Fields>
    reads codecs
  {
    seq(|codecs|, i requires 0 <= i < |codecs| reads codecs => Contents(codecs[i].fields))
  }

  method Find(wanted: Wanted, codecs: seq<Entry>) returns (t: nat)
    ensures t == FindIndex(wanted, AllContents(codecs))
  {
    t := 0;
    while t < |codecs|
      invariant t <= |codecs|
      invariant forall i :: 0 <= i < t ==> !Matches(wanted, AllContents(codecs)[i])
    {
      var found := codecs[t].Matching(wanted);
      if found {
        break;
      }
      t := t + 1;
    }
    FoundAt(wanted, AllContents(codecs), t);
  }

  lemma CopiedTwice(h: References, between: References, after: References, copy: References)
    requires Copied(h, between, h) && Copied(between, after, copy) && SameContents(copy, h)
    ensures Contents(after) == CopyInto(Contents(h), Contents(h))
  {
    assert between == h;
    CopiedContents(between, after, copy, h);
  }

  lemma FoundAt(wanted: Wanted, codecs: seq<Fields>, t: nat)
    requires t <= |codecs| && (t < |codecs| ==> Matches(wanted, codecs[t]))
    requires forall i :: 0 <= i < t ==> !Matches(wanted, codecs[i])
    ensures t == FindIndex(wanted, codecs)
  {
  }

  /** The exchange of two entries. */
  method Exchange(head: Entry, target: Entry)
    modifies head, target
    ensures var (h, t) := (old(Contents(head.fields)), old(Contents(target.fields)));
            && Contents(head.fields) == CopyInto(h, t)
            && Contents(target.fields) == CopyInto(t, h)
    ensures head != target ==> NothingShared(head.fields, target.fields)
  {
    ghost var (h, t) := (head.fields, target.fields);
    var copyOfHead := DeepCopy(head.fields);
    head.CopyExceptPayloadType(target.fields);
    ghost var between := target.fields;
    target.CopyExceptPayloadType(copyOfHead);
    CopiedContents(between, target.fields, copyOfHead, h);
    if head == target {
      CopiedContents(h, between, t, t);
      CopiedTwice(h, between, target.fields, copyOfHead);
    } else {
      CopiedContents(h, head.fields, t, t);
    }
  }

  /** The exchange in a list of different entries. */
  method FixVideoCodecWithParametersOrder(wanted: Wanted, codecs: seq<Entry>)
    requires forall i, j :: 0 <= i < j < |codecs| ==> codecs[i] != codecs[j]
    modifies codecs
    ensures AllContents(codecs) == Swapped(wanted, old(AllContents(codecs)))
    ensures var t := FindIndex(wanted, old(AllContents(codecs)));
            && (0 < t < |codecs| ==> NothingShared(codecs[0].fields, codecs[t].fields))
            && (forall i :: 0 < i < |codecs| && i != t ==> codecs[i].fields == old(codecs[i].fields))
  {
    var t := Find(wanted, codecs);
    if t < |codecs| {
      Exchange(codecs[0], codecs[t]);
    }
  }
}
