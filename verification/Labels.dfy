/** The state labels of a profile and the label and annotation keys the controller uses. */
module Labels {

  import opened Errors

  /** A label read from stored data may be any text. */
  datatype NodeStateLabel = Operational | Required | InMaintenance | Unknown(text: string)

  const OPERATIONAL := "operational"
  const REQUIRED := "maintenance-required"
  const IN_MAINTENANCE := "in-maintenance"

  const STATE_KEY := "cloud.sap/maintenance-state"
  const PROFILE_KEY := "cloud.sap/maintenance-profile"
  const DEFAULT_PROFILE := "default"
  const PROFILE_SEPARATOR := "--"

  function Text(l: NodeStateLabel): string
  {
    match l
    case Operational => OPERATIONAL
    case Required => REQUIRED
    case InMaintenance => IN_MAINTENANCE
    case Unknown(text) => text
  }

  /** Accepts exactly the texts of the three states. */
  function ValidateLabel(s: string): (r: Result<NodeStateLabel>)
    ensures r.Ok? <==> s in {OPERATIONAL, REQUIRED, IN_MAINTENANCE}
    ensures r.Ok? ==> Text(r.value) == s && !r.value.Unknown?
  {
    if s == OPERATIONAL then Ok(Operational)
    else if s == REQUIRED then Ok(Required)
    else if s == IN_MAINTENANCE then Ok(InMaintenance)
    else Err(Plain(UnknownLabel))
  }

  function Get(labels: map<string, string>, key: string): string
  {
    if key in labels then labels[key] else ""
  }
}
