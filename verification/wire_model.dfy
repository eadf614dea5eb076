/**
 * The wire-format DTOs of the Cloud Resource Manager v1 API that `OrgPolicyInfo`
 * converts to and from (`com.google.api.services.cloudresourcemanager.model`).
 * Each DTO is a bag of nullable properties; here each property is an `Option`.
 * The DTO classes themselves are not part of this model beyond their properties.
 */
module WireModel {
  import opened Wrappers

  /** The `RestoreDefault` DTO, whose contents are not modelled. */
  type RestoreDefault(==)

  /** `BooleanPolicy`: the single nullable `enforced` property. */
  datatype BooleanPolicy = BooleanPolicy(enforced: Option<bool>)

  /** `ListPolicy`: the five nullable properties of a list constraint's policy. */
  datatype ListPolicy = ListPolicy(
    allValues: Option<string>,
    allowedValues: Option<seq<string>>,
    deniedValues: Option<seq<string>>,
    inheritFromParent: Option<bool>,
    suggestedValue: Option<string>)

  /** `OrgPolicy`: the seven nullable properties of an organization policy. */
  datatype OrgPolicy = OrgPolicy(
    booleanPolicy: Option<BooleanPolicy>,
    constraint: Option<string>,
    etag: Option<string>,
    listPolicy: Option<ListPolicy>,
    restoreDefault: Option<RestoreDefault>,
    updateTime: Option<string>,
    version: Option<int32>)

  /** What `new OrgPolicy()` yields: every property unset. */
  const EmptyOrgPolicy := OrgPolicy(None, None, None, None, None, None, None)
}
