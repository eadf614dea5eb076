# Organization-policy entity model and RPC option keys

This project models two pieces of the Google Cloud Resource Manager Java client.

The first is the organization-policy entity model: `OrgPolicyInfo`. It is an immutable value with seven optional fields: boolean policy, constraint, etag, list policy, restore-default marker, update time and version. It has two nested values:

- `BoolPolicy` holds one optional `enforce` flag.
- `Policies` holds the list policy: all-values state, allowed and denied value lists, inherit-from-parent flag and suggested value.

The model also covers:

- the mutable `Builder` that stages the fields;
- `newBuilder` / `toBuilder` / `build`;
- Java's structural `equals`;
- the `toPb` / `fromPb` conversions to the wire `OrgPolicy`, `BooleanPolicy` and `ListPolicy` DTOs.

The second is the `Option` enumeration of the RPC interface. It maps each key to its wire query-parameter name and gives typed lookups into an option map.

Files:

- `wrappers.dfy`: `Option` (Java `null` becomes `None`) and the 32-bit `int32`.
- `wire_model.dfy`: the wire DTOs, as datatypes whose properties are all `Option`s. `RestoreDefault` is an abstract type, because its contents are not modelled.
- `org_policy_info.dfy`: the value datatypes and their conversions, the `Builder` class and the properties of each.
- `resource_manager_rpc.dfy`: the option keys.

Design points, following the code:

- A value may hold both a boolean policy and a list policy. Neither the builder setters nor `toPb` stop this, so the model allows it too.
- The rule "ALLOW/DENY ⇒ allowed/denied lists unset" is only a doc comment. It is not a datatype invariant.
- `version` is not defaulted to 0, even though its getter's comment calls 0 the default.
- The builder and the values share the list references they are given; there is no copy-on-build. Dafny values cannot alias, so the model shows none of this sharing.
- Getters are the datatypes' field destructors.
- `toPb` is a method that fills an empty DTO one field at a time. `ToWire` is the function that specifies it.
- `fromPb` is a method that drives a fresh `Builder` through the conditional setter calls. `FromWire` is the function that specifies it.
- The round-trip lemmas are stated on `ToWire` and `FromWire`.

## Model

| member | source | states |
|---|---|---|
| `OrgPolicies.ListEquals` | src/main/java/com/google/cloud/resourcemanager/OrgPolicyInfo.java:186-187 | The list comparison that `Objects.equals` applies to the allowed/denied lists. It compares element-wise and succeeds only if both lists end together. It holds exactly when the two sequences are equal. |
| `OrgPolicies.ObjectsEquals` | src/main/java/com/google/cloud/resourcemanager/OrgPolicyInfo.java:327-333 | `Objects.equals` on a nullable field holds when both sides are absent, or when both are present and the element's own `equals` accepts them. If that `equals` is structural, the result holds exactly when the two fields are identical. |
| `OrgPolicies.BoolPolicy.GetEnforce` | src/main/java/com/google/cloud/resourcemanager/OrgPolicyInfo.java:66-68 | Unboxing needs the flag to be present. The result is the stored flag. |
| `OrgPolicies.BoolPolicy.Equals` | src/main/java/com/google/cloud/resourcemanager/OrgPolicyInfo.java:76-85 | `equals` holds exactly when the two policies are structurally identical. |
| `OrgPolicies.BoolPolicy.ToPb` | src/main/java/com/google/cloud/resourcemanager/OrgPolicyInfo.java:92-94 | `toPb`: the wire `BooleanPolicy` of a flag. Its contract is carried by `BoolPolicyRoundTrip` and `BooleanPolicyRoundTrip`: `enforced` is `enforce` verbatim, and `fromPb` inverts it in both directions. |
| `OrgPolicies.BoolPolicy.FromPb` | src/main/java/com/google/cloud/resourcemanager/OrgPolicyInfo.java:96-98 | `fromPb`: the flag read from a wire `BooleanPolicy`. Its contract is carried by `BoolPolicyRoundTrip` and `BooleanPolicyRoundTrip`: it is the two-sided inverse of `toPb`. |
| `OrgPolicies.BoolPolicyRoundTrip` | src/main/java/com/google/cloud/resourcemanager/OrgPolicyInfo.java:92-98 | `fromPb(toPb(b)) == b`. `enforced` carries `enforce` verbatim, including absence. |
| `OrgPolicies.BooleanPolicyRoundTrip` | src/main/java/com/google/cloud/resourcemanager/OrgPolicyInfo.java:92-98 | `toPb(fromPb(pb)) == pb` for every wire `BooleanPolicy`. |
| `OrgPolicies.Policies.Equals` | src/main/java/com/google/cloud/resourcemanager/OrgPolicyInfo.java:176-190 | `equals` uses field-wise `Objects.equals`, with lists compared element-wise. It holds exactly when the two list policies are structurally identical. |
| `OrgPolicies.Policies.ToPb` | src/main/java/com/google/cloud/resourcemanager/OrgPolicyInfo.java:198-205 | `toPb`: the wire `ListPolicy` of a list policy. Its contract is carried by `PoliciesRoundTrip` and `ListPolicyRoundTrip`: both lists pass through unchanged, and `fromPb` inverts it in both directions. |
| `OrgPolicies.Policies.FromPb` | src/main/java/com/google/cloud/resourcemanager/OrgPolicyInfo.java:207-214 | `fromPb`: the list policy read from a wire `ListPolicy`. Its contract is carried by `PoliciesRoundTrip` and `ListPolicyRoundTrip`: it is the two-sided inverse of `toPb`. |
| `OrgPolicies.PoliciesRoundTrip` | src/main/java/com/google/cloud/resourcemanager/OrgPolicyInfo.java:198-214 | `fromPb(toPb(p)) == p`. Both value lists are passed through unchanged. |
| `OrgPolicies.ListPolicyRoundTrip` | src/main/java/com/google/cloud/resourcemanager/OrgPolicyInfo.java:198-214 | `toPb(fromPb(pb)) == pb` for every wire `ListPolicy`. |
| `OrgPolicies.OrgPolicyInfo.Equals` | src/main/java/com/google/cloud/resourcemanager/OrgPolicyInfo.java:318-334 | `equals` compares all seven fields, with nested values compared by their own `equals`. It holds exactly when the two values are structurally identical. |
| `OrgPolicies.HashAgreesWithEquals` | src/main/java/com/google/cloud/resourcemanager/OrgPolicyInfo.java:336-340 | Any hash function gives equal results for values that `equals` relates. This holds for `OrgPolicyInfo` and also for `BoolPolicy` (:87-90) and `Policies` (:192-196). |
| `OrgPolicies.OrgPolicyInfo.ToWire` | src/main/java/com/google/cloud/resourcemanager/OrgPolicyInfo.java:352-366 | The DTO that `toPb` builds, as a value. Its contract is carried by `OrgPolicyInfo.ToPb`, `RoundTrip` and `WireRoundTrip`: the method returns it, and `FromWire` inverts it in both directions. |
| `OrgPolicies.OrgPolicyInfo.FromWire` | src/main/java/com/google/cloud/resourcemanager/OrgPolicyInfo.java:368-392 | The value that `fromPb` builds, as a function. Its contract is carried by `OrgPolicyInfo.FromPb`, `RoundTrip`, `WireRoundTrip`, `FromWireInjective` and `FromWireNullTolerant`: the method returns it; it inverts `ToWire`; it is one-to-one; it defaults nothing. |
| `OrgPolicies.OrgPolicyInfo.ToPb` | src/main/java/com/google/cloud/resourcemanager/OrgPolicyInfo.java:352-366 | A boolean policy is emitted iff `boolPolicy` is present, carrying its flag. A list policy is emitted iff `policies` is present, as its wire form. Constraint, restore-default, etag, update time and version are copied verbatim, absence included. The result equals `ToWire`. |
| `OrgPolicies.OrgPolicyInfo.FromPb` | src/main/java/com/google/cloud/resourcemanager/OrgPolicyInfo.java:368-392 | The builder-driven conversion returns exactly `FromWire(pb)`. |
| `OrgPolicies.RoundTrip` | src/main/java/com/google/cloud/resourcemanager/OrgPolicyInfo.java:352-392 | `fromPb(toPb(v))` is identical to `v`, and also `equals` it, for every value `v`. |
| `OrgPolicies.WireRoundTrip` | src/main/java/com/google/cloud/resourcemanager/OrgPolicyInfo.java:352-392 | `toPb(fromPb(pb)) == pb` for every wire `OrgPolicy`. |
| `OrgPolicies.FromWireInjective` | src/main/java/com/google/cloud/resourcemanager/OrgPolicyInfo.java:368-392 | Two values read from DTOs are `equals` exactly when the DTOs are identical. |
| `OrgPolicies.FromWireNullTolerant` | src/main/java/com/google/cloud/resourcemanager/OrgPolicyInfo.java:368-392 | Each of the seven fields is absent exactly when its DTO property is absent. Nothing is defaulted. |
| `OrgPolicies.OrgPolicyInfo.NewBuilder` | src/main/java/com/google/cloud/resourcemanager/OrgPolicyInfo.java:343-345 | A fresh builder with nothing staged. |
| `OrgPolicies.OrgPolicyInfo.ToBuilder` | src/main/java/com/google/cloud/resourcemanager/OrgPolicyInfo.java:348-350 | A fresh builder staging exactly this value's seven fields. |
| `OrgPolicies.Builder.constructor` | src/main/java/com/google/cloud/resourcemanager/OrgPolicyInfo.java:227 | All seven staged fields start absent. |
| `OrgPolicies.Builder.Of` | src/main/java/com/google/cloud/resourcemanager/OrgPolicyInfo.java:229-237 | All seven fields are copied from the given value. |
| `OrgPolicies.Builder.SetBoolPolicy` | src/main/java/com/google/cloud/resourcemanager/OrgPolicyInfo.java:239-242 | Only the boolean policy changes; the other six staged fields stay. Returns the builder itself. |
| `OrgPolicies.Builder.SetConstraint` | src/main/java/com/google/cloud/resourcemanager/OrgPolicyInfo.java:244-247 | Only the constraint changes; the other six stay. Returns the builder itself. |
| `OrgPolicies.Builder.SetEtag` | src/main/java/com/google/cloud/resourcemanager/OrgPolicyInfo.java:249-252 | Only the etag changes; the other six stay. Returns the builder itself. |
| `OrgPolicies.Builder.SetListPolicy` | src/main/java/com/google/cloud/resourcemanager/OrgPolicyInfo.java:254-257 | Only the list policy changes; the other six stay. Returns the builder itself. |
| `OrgPolicies.Builder.SetRestoreDefault` | src/main/java/com/google/cloud/resourcemanager/OrgPolicyInfo.java:259-262 | Only the restore-default marker changes; the other six stay. Returns the builder itself. |
| `OrgPolicies.Builder.SetUpdateTime` | src/main/java/com/google/cloud/resourcemanager/OrgPolicyInfo.java:264-267 | Only the update time changes; the other six stay. Returns the builder itself. |
| `OrgPolicies.Builder.SetVersion` | src/main/java/com/google/cloud/resourcemanager/OrgPolicyInfo.java:269-272 | Only the version changes; the other six stay. Returns the builder itself. |
| `OrgPolicies.Builder.Snapshot` | src/main/java/com/google/cloud/resourcemanager/OrgPolicyInfo.java:279-287 | The `OrgPolicyInfo(Builder)` constructor: the value holding the seven staged fields. Its contract is carried by `Builder.Build`, which returns it, and by the setters, each of which changes exactly one of its fields. |
| `OrgPolicies.Builder.Build` | src/main/java/com/google/cloud/resourcemanager/OrgPolicyInfo.java:274-287 | The built value carries every staged field, one for one. |
| `OrgPolicies.RebuildIsIdentity` | src/main/java/com/google/cloud/resourcemanager/OrgPolicyInfo.java:348-350 | `v.toBuilder().build()` equals `v`. |
| `OrgPolicies.NewBuilderBuildsEmpty` | src/main/java/com/google/cloud/resourcemanager/OrgPolicyInfo.java:343-345 | `newBuilder().build()` has every field absent. |
| `OrgPolicies.BuildIsSnapshot` | src/main/java/com/google/cloud/resourcemanager/OrgPolicyInfo.java:274-287 | A value built earlier keeps the fields staged at the time. A later `setEtag` changes only the builder and the next build, and the builder then holds that next build. The other six setters carry the same `Snapshot() == old(Snapshot()).(field := x)` contract, so the same holds of them. |
| `ResourceManagerRpc.Option.Value` | src/main/java/com/google/cloud/resourcemanager/spi/v1beta1/ResourceManagerRpc.java:44-52 | Every key has a non-empty wire name. |
| `ResourceManagerRpc.ValueTable` | src/main/java/com/google/cloud/resourcemanager/spi/v1beta1/ResourceManagerRpc.java:38-42 | FILTER→"filter", FIELDS→"fields", PAGE_SIZE→"pageSize", PAGE_TOKEN→"pageToken". |
| `ResourceManagerRpc.ValueInjective` | src/main/java/com/google/cloud/resourcemanager/spi/v1beta1/ResourceManagerRpc.java:38-42 | Two keys have the same wire name iff they are the same key. |
| `ResourceManagerRpc.Option.Get` | src/main/java/com/google/cloud/resourcemanager/spi/v1beta1/ResourceManagerRpc.java:54-57 | Present iff the key is in the map, and then it is the stored entry. |
| `ResourceManagerRpc.Option.GetString` | src/main/java/com/google/cloud/resourcemanager/spi/v1beta1/ResourceManagerRpc.java:59-61 | Returns exactly what `get` returns, read as a string. |
| `ResourceManagerRpc.Option.GetInt` | src/main/java/com/google/cloud/resourcemanager/spi/v1beta1/ResourceManagerRpc.java:63-65 | Returns exactly what `get` returns, read as an integer. |
| `ResourceManagerRpc.GetIgnoresOtherKeys` | src/main/java/com/google/cloud/resourcemanager/spi/v1beta1/ResourceManagerRpc.java:55-57 | Storing or removing an entry under a different key leaves a key's lookup unchanged. |
| `ResourceManagerRpc.GetAfterStore` | src/main/java/com/google/cloud/resourcemanager/spi/v1beta1/ResourceManagerRpc.java:55-57 | After storing under a key, its lookup returns the stored value. After removing the key, the lookup is absent. |

## Left out

- The numeric values of `hashCode` (`Objects.hash`) are not modelled. The model states only that any function of a value agrees with `equals`.
- `toString`, `Serializable` and the Guava `Function` adapters `FROM_PB_FUNCTION` / `TO_PB_FUNCTION` are library plumbing, so they are not modelled.
- The contents of the `RestoreDefault` DTO are not modelled. It is an abstract type compared with `==`, which stands for its own `equals`.
- Reference identity is not modelled. This covers the `this == o` shortcut and the `getClass()` check in `equals`, and the list references shared between builder, value and DTO (the code copies no lists). In the model all values are immutable and compared by structure.
- OrgPolicies.BoolPolicy.GetEnforce requires the flag to be present. The Java method throws a `NullPointerException` instead; that exception is not modelled.
- ResourceManagerRpc.Option.GetString requires the stored value, if any, to be a string. The Java unchecked cast would throw a `ClassCastException` at the call site instead; that exception is not modelled.
- ResourceManagerRpc.Option.GetInt requires the stored value, if any, to be an integer, for the same reason.
- Option-map values are modelled as strings or 32-bit integers, the only kinds the keys carry. The Java map accepts any object.
- List elements are `string`s, so a `seq<string>` cannot hold the `null` elements that the Java `List<String>` fields can. Java's `List.equals` compares such elements null-safely, and `toPb`/`fromPb` pass them through; neither behaviour is modelled.
- A Java `Map<Option, ?>` can map a key to `null`. Then `options.get(this)` returns `null` even though the key is present. The model's `OptionValue` has no null, so `ResourceManagerRpc.Option.Get` is present exactly when the key is stored.
- Null arguments are not modelled, because a Dafny parameter cannot be absent. In Java, `equals(null)` returns false, and `fromPb(null)` and `BoolPolicy.fromPb(null)` throw a `NullPointerException`.
- The wire DTOs are modelled only by their seven (`OrgPolicy`), five (`ListPolicy`) and one (`BooleanPolicy`) properties. `WireRoundTrip` and `FromWireInjective` hold of that abstraction. Any other state a DTO object may carry, such as unknown JSON keys, is not modelled.
- The remote-call methods of the RPC interface are not modelled: they are network operations without bodies. Neither are the retry controller, pagination engine and etag-conflict handling, because ResourceManagerImpl, the retry helper and the page implementation are not part of this model.
- `LienInfo` and `ProjectInfo` are not part of this model.
