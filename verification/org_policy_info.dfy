/**
 * The organization-policy entity model: the immutable `OrgPolicyInfo` value,
 * its two nested values `BoolPolicy` and `Policies`, the mutable `Builder` that
 * stages its seven fields, and the conversions to and from the wire `OrgPolicy`.
 *
 * Every Java field that may hold `null` is an `Option`. The value types are
 * datatypes, so a built value can never be changed afterwards; the builder is a
 * class whose setters update its fields in place.
 */
module OrgPolicies {
  import opened Wrappers
  import opened WireModel

  // ---------------------------------------------------------------------------
  // Java equality on the field types
  // ---------------------------------------------------------------------------

  /**
   * `List.equals`: walk both lists in step, comparing elements; equal when every
   * compared pair matches and both run out together. The contract says that this
   * is exactly equality of the two sequences.
   */
  function ListEquals<T(==)>(a: seq<T>, b: seq<T>): (r: bool)
    ensures r <==> a == b
  {
    if |a| == 0 || |b| == 0 then |a| == 0 && |b| == 0
    else
      var rest := ListEquals(a[1..], b[1..]);
      assert a == [a[0]] + a[1..] && b == [b[0]] + b[1..];
      a[0] == b[0] && rest
  }

  /**
   * `Objects.equals` on two nullable references: both null, or the first present
   * and its `equals` (the parameter `equals`) accepting the second, which must be present.
   * Whenever that `equals` is structural, so is the result.
   */
  function ObjectsEquals<T(==, !new)>(a: Option<T>, b: Option<T>, equals: (T, T) -> bool): (r: bool)
    requires forall x, y :: equals(x, y) <==> x == y
    ensures r <==> a == b
  {
    match a
    case None => b.None?
    case Some(x) => b.Some? && equals(x, b.value)
  }

  // ---------------------------------------------------------------------------
  // BoolPolicy
  // ---------------------------------------------------------------------------

  /** Policy of a boolean constraint: whether to enforce it (the flag itself may be absent). */
  datatype BoolPolicy = BoolPolicy(enforce: Option<bool>)
  {
    /** `getEnforce` unboxes the flag, which fails when it is absent. */
    function GetEnforce(): (r: bool)
      requires enforce.Some?
      ensures enforce == Some(r)
    {
      enforce.value
    }

    /** `equals`: `Objects.equals` on the one field. */
    function Equals(that: BoolPolicy): (r: bool)
      ensures r <==> this == that
    {
      enforce == that.enforce
    }

    /** `toPb`: the wire `BooleanPolicy` with `enforced` set to the flag. */
    function ToPb(): BooleanPolicy
    {
      BooleanPolicy(enforce)
    }

    /** `fromPb`: the flag read back from the wire `enforced` property. */
    static function FromPb(pb: BooleanPolicy): BoolPolicy
    {
      BoolPolicy(pb.enforced)
    }
  }

  lemma BoolPolicyRoundTrip(p: BoolPolicy)
    ensures BoolPolicy.FromPb(p.ToPb()) == p
    ensures p.ToPb().enforced == p.enforce
  {
  }

  lemma BooleanPolicyRoundTrip(pb: BooleanPolicy)
    ensures BoolPolicy.FromPb(pb).ToPb() == pb
  {
  }

  // ---------------------------------------------------------------------------
  // Policies (the list policy)
  // ---------------------------------------------------------------------------

  /**
   * Policy of a list constraint. Its documentation asks that `allowedValues` and
   * `deniedValues` be unset when `allValues` is ALLOW or DENY; nothing in the
   * class enforces that, so it is not an invariant here.
   */
  datatype Policies = Policies(
    allValues: Option<string>,
    allowedValues: Option<seq<string>>,
    deniedValues: Option<seq<string>>,
    inheritFromParent: Option<bool>,
    suggestedValue: Option<string>)
  {
    /** `equals`: `Objects.equals` on each of the five fields, the lists compared element-wise. */
    function Equals(that: Policies): (r: bool)
      ensures r <==> this == that
    {
      && allValues == that.allValues
      && ObjectsEquals(allowedValues, that.allowedValues, (x: seq<string>, y: seq<string>) => ListEquals(x, y))
      && ObjectsEquals(deniedValues, that.deniedValues, (x: seq<string>, y: seq<string>) => ListEquals(x, y))
      && inheritFromParent == that.inheritFromParent
      && suggestedValue == that.suggestedValue
    }

    /** `toPb`: a wire `ListPolicy` with each of the five properties set from the field. */
    function ToPb(): ListPolicy
    {
      ListPolicy(allValues, allowedValues, deniedValues, inheritFromParent, suggestedValue)
    }

    /** `fromPb`: the five fields read back from the wire properties. */
    static function FromPb(pb: ListPolicy): Policies
    {
      Policies(pb.allValues, pb.allowedValues, pb.deniedValues, pb.inheritFromParent, pb.suggestedValue)
    }
  }

  lemma PoliciesRoundTrip(p: Policies)
    ensures Policies.FromPb(p.ToPb()) == p
    ensures p.ToPb().allowedValues == p.allowedValues && p.ToPb().deniedValues == p.deniedValues
  {
  }

  lemma ListPolicyRoundTrip(pb: ListPolicy)
    ensures Policies.FromPb(pb).ToPb() == pb
  {
  }

  // ---------------------------------------------------------------------------
  // OrgPolicyInfo
  // ---------------------------------------------------------------------------

  /**
   * An organization policy. Both `boolPolicy` and `policies` may be present at
   * once: neither the builder nor `toPb` prevents it. The fields are read with
   * the datatype's destructors, which play the part of the getters.
   */
  datatype OrgPolicyInfo = OrgPolicyInfo(
    boolPolicy: Option<BoolPolicy>,
    constraint: Option<string>,
    etag: Option<string>,
    policies: Option<Policies>,
    restoreDefault: Option<RestoreDefault>,
    updateTime: Option<string>,
    version: Option<int32>)
  {
    /** `equals`: `Objects.equals` on all seven fields, nested values by their own `equals`. */
    function Equals(that: OrgPolicyInfo): (r: bool)
      ensures r <==> this == that
    {
      && ObjectsEquals(boolPolicy, that.boolPolicy, (x: BoolPolicy, y: BoolPolicy) => x.Equals(y))
      && constraint == that.constraint
      && etag == that.etag
      && ObjectsEquals(policies, that.policies, (x: Policies, y: Policies) => x.Equals(y))
      && restoreDefault == that.restoreDefault
      && updateTime == that.updateTime
      && version == that.version
    }

    /** The DTO that `toPb` produces, as a value. */
    function ToWire(): OrgPolicy
    {
      OrgPolicy(
        if boolPolicy.Some? then Some(boolPolicy.value.ToPb()) else None,
        constraint,
        etag,
        if policies.Some? then Some(policies.value.ToPb()) else None,
        restoreDefault,
        updateTime,
        version)
    }

    /** The value that `fromPb` produces from a DTO. */
    static function FromWire(pb: OrgPolicy): OrgPolicyInfo
    {
      OrgPolicyInfo(
        if pb.booleanPolicy.Some? then Some(BoolPolicy.FromPb(pb.booleanPolicy.value)) else None,
        pb.constraint,
        pb.etag,
        if pb.listPolicy.Some? then Some(Policies.FromPb(pb.listPolicy.value)) else None,
        pb.restoreDefault,
        pb.updateTime,
        pb.version)
    }

    /**
     * `toPb`: start from an empty DTO, set the nested policies only when present,
     * and copy the five other fields as they are (an absent one stays unset).
     */
    method ToPb() returns (pb: OrgPolicy)
      ensures pb.booleanPolicy.Some? <==> boolPolicy.Some?
      ensures boolPolicy.Some? ==> pb.booleanPolicy.value.enforced == boolPolicy.value.enforce
      ensures pb.listPolicy.Some? <==> policies.Some?
      ensures policies.Some? ==> pb.listPolicy.value == policies.value.ToPb()
      ensures pb.constraint == constraint && pb.restoreDefault == restoreDefault
      ensures pb.etag == etag && pb.updateTime == updateTime && pb.version == version
      ensures pb == ToWire()
    {
      pb := EmptyOrgPolicy;
      if boolPolicy.Some? {
        pb := pb.(booleanPolicy := Some(boolPolicy.value.ToPb()));
      }
      pb := pb.(constraint := constraint);
      if policies.Some? {
        pb := pb.(listPolicy := Some(policies.value.ToPb()));
      }
      pb := pb.(restoreDefault := restoreDefault);
      pb := pb.(etag := etag);
      pb := pb.(updateTime := updateTime);
      pb := pb.(version := version);
    }

    /**
     * `fromPb`: drive a fresh builder with one setter call per present DTO
     * property, then build.
     */
    static method FromPb(pb: OrgPolicy) returns (info: OrgPolicyInfo)
      ensures info == FromWire(pb)
    {
      var builder := NewBuilder();
      if pb.booleanPolicy.Some? {
        var _ := builder.SetBoolPolicy(Some(BoolPolicy.FromPb(pb.booleanPolicy.value)));
      }
      if pb.constraint.Some? {
        var _ := builder.SetConstraint(pb.constraint);
      }
      if pb.listPolicy.Some? {
        var _ := builder.SetListPolicy(Some(Policies.FromPb(pb.listPolicy.value)));
      }
      if pb.restoreDefault.Some? {
        var _ := builder.SetRestoreDefault(pb.restoreDefault);
      }
      if pb.etag.Some? {
        var _ := builder.SetEtag(pb.etag);
      }
      if pb.updateTime.Some? {
        var _ := builder.SetUpdateTime(pb.updateTime);
      }
      if pb.version.Some? {
        var _ := builder.SetVersion(pb.version);
      }
      info := builder.Build();
    }

    /** `newBuilder`: a builder with nothing staged. */
    static method NewBuilder() returns (b: Builder)
      ensures fresh(b) && b.Snapshot() == EmptyInfo
    {
      b := new Builder();
    }

    /** `toBuilder`: a builder holding all seven fields of this value. */
    method ToBuilder() returns (b: Builder)
      ensures fresh(b) && b.Snapshot() == this
    {
      b := new Builder.Of(this);
    }
  }

  /** The value with every field absent. */
  const EmptyInfo := OrgPolicyInfo(None, None, None, None, None, None, None)

  /** Mutable staging object for an `OrgPolicyInfo`. */
  class Builder {
    var boolPolicy: Option<BoolPolicy>
    var constraint: Option<string>
    var etag: Option<string>
    var policies: Option<Policies>
    var restoreDefault: Option<RestoreDefault>
    var updateTime: Option<string>
    var version: Option<int32>

    /** The `OrgPolicyInfo(Builder)` constructor: the value holding the staged fields. */
    function Snapshot(): OrgPolicyInfo
      reads this
    {
      OrgPolicyInfo(boolPolicy, constraint, etag, policies, restoreDefault, updateTime, version)
    }

    /** `Builder()`: every field left null. */
    constructor ()
      ensures Snapshot() == EmptyInfo
    {
      boolPolicy, constraint, etag, policies := None, None, None, None;
      restoreDefault, updateTime, version := None, None, None;
    }

    /** `Builder(OrgPolicyInfo)`: every field copied from `info`. */
    constructor Of(info: OrgPolicyInfo)
      ensures Snapshot() == info
    {
      boolPolicy := info.boolPolicy;
      constraint := info.constraint;
      etag := info.etag;
      policies := info.policies;
      restoreDefault := info.restoreDefault;
      updateTime := info.updateTime;
      version := info.version;
    }

    method SetBoolPolicy(p: Option<BoolPolicy>) returns (self: Builder)
      modifies this
      ensures self == this
      ensures Snapshot() == old(Snapshot()).(boolPolicy := p)
    {
      boolPolicy := p;
      self := this;
    }

    method SetConstraint(c: Option<string>) returns (self: Builder)
      modifies this
      ensures self == this
      ensures Snapshot() == old(Snapshot()).(constraint := c)
    {
      constraint := c;
      self := this;
    }

    method SetEtag(e: Option<string>) returns (self: Builder)
      modifies this
      ensures self == this
      ensures Snapshot() == old(Snapshot()).(etag := e)
    {
      etag := e;
      self := this;
    }

    method SetListPolicy(p: Option<Policies>) returns (self: Builder)
      modifies this
      ensures self == this
      ensures Snapshot() == old(Snapshot()).(policies := p)
    {
      policies := p;
      self := this;
    }

    method SetRestoreDefault(r: Option<RestoreDefault>) returns (self: Builder)
      modifies this
      ensures self == this
      ensures Snapshot() == old(Snapshot()).(restoreDefault := r)
    {
      restoreDefault := r;
      self := this;
    }

    method SetUpdateTime(t: Option<string>) returns (self: Builder)
      modifies this
      ensures self == this
      ensures Snapshot() == old(Snapshot()).(updateTime := t)
    {
      updateTime := t;
      self := this;
    }

    method SetVersion(v: Option<int32>) returns (self: Builder)
      modifies this
      ensures self == this
      ensures Snapshot() == old(Snapshot()).(version := v)
    {
      version := v;
      self := this;
    }

    /** `build`: freeze the staged fields into a value. */
    method Build() returns (info: OrgPolicyInfo)
      ensures info == Snapshot()
      ensures info.boolPolicy == boolPolicy && info.constraint == constraint && info.etag == etag
      ensures info.policies == policies && info.restoreDefault == restoreDefault
      ensures info.updateTime == updateTime && info.version == version
    {
      info := OrgPolicyInfo(boolPolicy, constraint, etag, policies, restoreDefault, updateTime, version);
    }
  }

  // ---------------------------------------------------------------------------
  // Properties of the conversions and the builder
  // ---------------------------------------------------------------------------

  /** Converting a value to its DTO and back gives the same value. */
  lemma {:induction false} RoundTrip(v: OrgPolicyInfo)
    ensures OrgPolicyInfo.FromWire(v.ToWire()) == v
    ensures OrgPolicyInfo.FromWire(v.ToWire()).Equals(v)
  {
    if v.boolPolicy.Some? {
      BoolPolicyRoundTrip(v.boolPolicy.value);
    }
    if v.policies.Some? {
      PoliciesRoundTrip(v.policies.value);
    }
  }

  /** Reading a DTO and writing it back gives the same DTO. */
  lemma {:induction false} WireRoundTrip(pb: OrgPolicy)
    ensures OrgPolicyInfo.FromWire(pb).ToWire() == pb
  {
    if pb.booleanPolicy.Some? {
      BooleanPolicyRoundTrip(pb.booleanPolicy.value);
    }
    if pb.listPolicy.Some? {
      ListPolicyRoundTrip(pb.listPolicy.value);
    }
  }

  /** Two values read from DTOs are equal exactly when the DTOs are. */
  lemma FromWireInjective(p: OrgPolicy, q: OrgPolicy)
    ensures OrgPolicyInfo.FromWire(p).Equals(OrgPolicyInfo.FromWire(q)) <==> p == q
  {
    WireRoundTrip(p);
    WireRoundTrip(q);
  }

  /** `fromPb` never supplies a default: each field is absent exactly when its DTO property is. */
  lemma FromWireNullTolerant(pb: OrgPolicy)
    ensures var info := OrgPolicyInfo.FromWire(pb);
      && (info.boolPolicy.None? <==> pb.booleanPolicy.None?)
      && (info.constraint.None? <==> pb.constraint.None?)
      && (info.etag.None? <==> pb.etag.None?)
      && (info.policies.None? <==> pb.listPolicy.None?)
      && (info.restoreDefault.None? <==> pb.restoreDefault.None?)
      && (info.updateTime.None? <==> pb.updateTime.None?)
      && (info.version.None? <==> pb.version.None?)
  {
  }

  /**
   * Whatever a hash function computes from a value, values that are `equals` get
   * the same hash; likewise for `BoolPolicy` and `Policies`.
   */
  lemma HashAgreesWithEquals(
    a: OrgPolicyInfo, b: OrgPolicyInfo, hashCode: OrgPolicyInfo -> int,
    p: BoolPolicy, q: BoolPolicy, boolHashCode: BoolPolicy -> int,
    x: Policies, y: Policies, listHashCode: Policies -> int)
    ensures a.Equals(b) ==> hashCode(a) == hashCode(b)
    ensures p.Equals(q) ==> boolHashCode(p) == boolHashCode(q)
    ensures x.Equals(y) ==> listHashCode(x) == listHashCode(y)
  {
  }

  /** `v.toBuilder().build()` gives back `v`. */
  method RebuildIsIdentity(v: OrgPolicyInfo) returns (w: OrgPolicyInfo)
    ensures w == v
  {
    var b := v.ToBuilder();
    w := b.Build();
  }

  /** `newBuilder().build()` gives the value with every field absent. */
  method NewBuilderBuildsEmpty() returns (info: OrgPolicyInfo)
    ensures info.boolPolicy.None? && info.constraint.None? && info.etag.None?
    ensures info.policies.None? && info.restoreDefault.None?
    ensures info.updateTime.None? && info.version.None?
  {
    var b := OrgPolicyInfo.NewBuilder();
    info := b.Build();
  }

  /**
   * A value built earlier is unaffected by a later `setEtag` on the same builder;
   * the other six setters have the same shape of contract, so the same holds of them.
   */
  method BuildIsSnapshot(b: Builder, e: Option<string>) returns (first: OrgPolicyInfo, second: OrgPolicyInfo)
    modifies b
    ensures first == old(b.Snapshot())
    ensures second == first.(etag := e)
    ensures b.Snapshot() == second
  {
    first := b.Build();
    var _ := b.SetEtag(e);
    second := b.Build();
  }
}
