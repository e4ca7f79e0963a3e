/**
 * The service descriptor and its wire form: `SnoopConfig`, a bean of three
 * strings, written by `toJSON` as a flat JSON object and read back by
 * `fromJSON`.
 */
module Codec {
  import opened Wrappers
  import opened Json

  /**
   * The three names the wire form uses, in the order `toJSON` writes them.
   * They are built from a common prefix, which also keeps the verifier from
   * evaluating their escaping wherever a descriptor is written.
   */
  const SERVICE: string := "service"
  const SERVICE_NAME: string := SERVICE + "Name"
  const SERVICE_HOME: string := SERVICE + "Home"
  const SERVICE_ROOT: string := SERVICE + "Root"

  /** A descriptor whose three fields are all set: identity, home address and root path. */
  datatype Descriptor = Descriptor(serviceName: string, serviceHome: string, serviceRoot: string)

  /**
   * Why `fromJSON` fails: the text is not JSON, it is JSON but not an object
   * (both raised by the JSON reader), a member is missing (`getString`
   * dereferences null), or a member is not a string (`getString` casts it).
   */
  datatype DecodeError = Malformed | NotAnObject | MissingMember(key: string) | NotAString(key: string)

  function Members(d: Descriptor): seq<(string, string)> {
    [(SERVICE_NAME, d.serviceName), (SERVICE_HOME, d.serviceHome), (SERVICE_ROOT, d.serviceRoot)]
  }

  /**
   * `toJSON`: one object with the members serviceName, serviceHome,
   * serviceRoot, in that order. `EncodeShape` and `RoundTrip` state what it
   * writes; the bean's `ToJson` is specified through it.
   */
  function Encode(d: Descriptor): string {
    WriteObject(Members(d))
  }

  /** `JsonObject.getString(key)`. */
  function GetString(members: seq<(string, Value)>, key: string): Result<string, DecodeError> {
    match Get(members, key)
    case None => Err(MissingMember(key))
    case Some(JString(s)) => Ok(s)
    case Some(_) => Err(NotAString(key))
  }

  /** Member `key` is present and holds a string. */
  predicate HasString(members: seq<(string, Value)>, key: string) {
    Get(members, key).Some? && Get(members, key).value.JString?
  }

  /** The three `getString` calls of `fromJSON`, in source order. */
  function DecodeMembers(members: seq<(string, Value)>): (r: Result<Descriptor, DecodeError>)
    ensures r.Ok? <==> HasString(members, SERVICE_NAME) && HasString(members, SERVICE_HOME) && HasString(members, SERVICE_ROOT)
    ensures r.Ok? ==> (Get(members, SERVICE_NAME) == Some(JString(r.value.serviceName))
                    && Get(members, SERVICE_HOME) == Some(JString(r.value.serviceHome))
                    && Get(members, SERVICE_ROOT) == Some(JString(r.value.serviceRoot)))
    ensures Get(members, SERVICE_NAME).None? ==> r == Err(MissingMember(SERVICE_NAME))
    ensures Get(members, SERVICE_NAME).Some? && !Get(members, SERVICE_NAME).value.JString? ==> r == Err(NotAString(SERVICE_NAME))
  {
    var name :- GetString(members, SERVICE_NAME);
    var home :- GetString(members, SERVICE_HOME);
    var root :- GetString(members, SERVICE_ROOT);
    Ok(Descriptor(name, home, root))
  }

  /** `fromJSON`: read one object and take its three string members. */
  function Decode(json: string): (r: Result<Descriptor, DecodeError>)
    ensures ParseText(json).Err? ==> r == Err(Malformed)
    ensures ParseText(json).Ok? && !ParseText(json).value.JObject? ==> r == Err(NotAnObject)
    ensures r.Ok? ==> ParseText(json).Ok? && ParseText(json).value.JObject?
    ensures r.Ok? ==> DecodeMembers(ParseText(json).value.members) == r
    ensures ParseText(json).Ok? && ParseText(json).value.JObject? ==>
              r == DecodeMembers(ParseText(json).value.members)
  {
    match ParseText(json)
    case Err(_) => Err(Malformed)
    case Ok(JObject(members)) => DecodeMembers(members)
    case Ok(_) => Err(NotAnObject)
  }

  // ---------------------------------------------------------------------------
  // Properties of the wire form
  // ---------------------------------------------------------------------------

  /** `toJSON` writes exactly one object holding serviceName, serviceHome and serviceRoot, in that order. */
  lemma EncodeShape(d: Descriptor)
    ensures ParseText(Encode(d)) == Ok(JObject([(SERVICE_NAME, JString(d.serviceName)),
                                                (SERVICE_HOME, JString(d.serviceHome)),
                                                (SERVICE_ROOT, JString(d.serviceRoot))]))
  {
    var ms := Members(d);
    ObjectRoundTrip(ms);
    var t2 := ms[1..][1..];
    assert t2 == [(SERVICE_ROOT, d.serviceRoot)];
    assert t2[1..] == [];
    var s2 := StringMembers(t2);
    assert s2 == [(SERVICE_ROOT, JString(d.serviceRoot))];
    var s1 := StringMembers(ms[1..]);
    assert s1 == [(SERVICE_HOME, JString(d.serviceHome))] + s2;
    assert StringMembers(ms) == [(SERVICE_NAME, JString(d.serviceName))] + s1;
    assert StringMembers(ms) == [(SERVICE_NAME, JString(d.serviceName)),
                                 (SERVICE_HOME, JString(d.serviceHome)),
                                 (SERVICE_ROOT, JString(d.serviceRoot))];
  }

  /** The object `toJSON` writes, read member by member, gives back the descriptor. */
  lemma DecodeWrittenMembers(d: Descriptor)
    ensures DecodeMembers([(SERVICE_NAME, JString(d.serviceName)),
                           (SERVICE_HOME, JString(d.serviceHome)),
                           (SERVICE_ROOT, JString(d.serviceRoot))]) == Ok(d)
  {
    assert SERVICE_NAME[7] == 'N' && SERVICE_HOME[7] == 'H' && SERVICE_ROOT[7] == 'R';
    var m1: seq<(string, Value)> := [(SERVICE_NAME, JString(d.serviceName))];
    var m2 := m1 + [(SERVICE_HOME, JString(d.serviceHome))];
    var m3 := m2 + [(SERVICE_ROOT, JString(d.serviceRoot))];
    assert m3 == [(SERVICE_NAME, JString(d.serviceName)), (SERVICE_HOME, JString(d.serviceHome)), (SERVICE_ROOT, JString(d.serviceRoot))];
    assert m1 == [] + [(SERVICE_NAME, JString(d.serviceName))];
    GetAppendHit([], SERVICE_NAME, JString(d.serviceName));
    GetAppendHit(m1, SERVICE_HOME, JString(d.serviceHome));
    GetAppendHit(m2, SERVICE_ROOT, JString(d.serviceRoot));
    GetAppendMiss(m1, SERVICE_HOME, JString(d.serviceHome), SERVICE_NAME);
    GetAppendMiss(m2, SERVICE_ROOT, JString(d.serviceRoot), SERVICE_NAME);
    GetAppendMiss(m2, SERVICE_ROOT, JString(d.serviceRoot), SERVICE_HOME);
  }

  /** `fromJSON(toJSON(c))` has the same serviceName, serviceHome and serviceRoot as `c`. */
  lemma RoundTrip(d: Descriptor)
    ensures Decode(Encode(d)) == Ok(d)
  {
    EncodeShape(d);
    DecodeWrittenMembers(d);
  }

  predicate IsDescriptorKey(key: string) {
    key == SERVICE_NAME || key == SERVICE_HOME || key == SERVICE_ROOT
  }

  /** The members `fromJSON` looks at, in their original order. */
  function DescriptorMembers(members: seq<(string, Value)>): (r: seq<(string, Value)>)
    decreases |members|
  {
    if members == [] then []
    else
      var last := members[|members| - 1];
      DescriptorMembers(members[..|members| - 1]) + (if IsDescriptorKey(last.0) then [last] else [])
  }

  lemma {:induction false} GetDescriptorMembers(members: seq<(string, Value)>, key: string)
    requires IsDescriptorKey(key)
    ensures Get(DescriptorMembers(members), key) == Get(members, key)
    decreases |members|
  {
    if members != [] {
      var init, last := members[..|members| - 1], members[|members| - 1];
      assert members == init + [(last.0, last.1)];
      GetDescriptorMembers(init, key);
      if last.0 == key {
        GetAppendHit(init, key, last.1);
        GetAppendHit(DescriptorMembers(init), key, last.1);
      } else {
        GetAppendMiss(init, last.0, last.1, key);
        if IsDescriptorKey(last.0) {
          GetAppendMiss(DescriptorMembers(init), last.0, last.1, key);
        } else {
          assert DescriptorMembers(init) + [] == DescriptorMembers(init);
        }
      }
    }
  }

  /** `fromJSON` ignores every member other than the three it reads. */
  lemma IgnoresOtherMembers(members: seq<(string, Value)>)
    ensures DecodeMembers(DescriptorMembers(members)) == DecodeMembers(members)
  {
    GetDescriptorMembers(members, SERVICE_NAME);
    GetDescriptorMembers(members, SERVICE_HOME);
    GetDescriptorMembers(members, SERVICE_ROOT);
  }

  // ---------------------------------------------------------------------------
  // The bean
  // ---------------------------------------------------------------------------

  /** `SnoopConfig`: three string fields, null until set. */
  class SnoopConfig {
    var serviceName: Option<string>
    var serviceHome: Option<string>
    var serviceRoot: Option<string>

    constructor ()
      ensures serviceName == None && serviceHome == None && serviceRoot == None
    {
      serviceName, serviceHome, serviceRoot := None, None, None;
    }

    method SetServiceName(name: string)
      modifies this
      ensures serviceName == Some(name)
      ensures serviceHome == old(serviceHome) && serviceRoot == old(serviceRoot)
    {
      serviceName := Some(name);
    }

    method SetServiceHome(home: string)
      modifies this
      ensures serviceHome == Some(home)
      ensures serviceName == old(serviceName) && serviceRoot == old(serviceRoot)
    {
      serviceHome := Some(home);
    }

    method SetServiceRoot(root: string)
      modifies this
      ensures serviceRoot == Some(root)
      ensures serviceName == old(serviceName) && serviceHome == old(serviceHome)
    {
      serviceRoot := Some(root);
    }

    /** All three fields are set, so `toJSON` can write them. */
    predicate Complete()
      reads this
    {
      serviceName.Some? && serviceHome.Some? && serviceRoot.Some?
    }

    function Value(): Descriptor
      reads this
      requires Complete()
    {
      Descriptor(serviceName.value, serviceHome.value, serviceRoot.value)
    }

    /**
     * `toJSON`. Writing a null field makes the generator throw, so every
     * field must be set. Reading the result back gives the fields again.
     */
    function ToJson(): (json: string)
      reads this
      requires Complete()
      ensures Decode(json) == Ok(Value())
      ensures json != [] && json[0] == '{'
    {
      RoundTrip(Value());
      Encode(Value())
    }
  }
}
