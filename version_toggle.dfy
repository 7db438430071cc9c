/** The strategy version picker: a single-choice toggle group over four tokens. */
module VersionToggle {
  import opened Wrappers

  predicate IsVersion(value: string) {
    value == "0" || value == "1" || value == "2" || value == "3"
  }

  /** `VersionType`, the string literal union "0" | "1" | "2" | "3". */
  type VersionType = s: string | IsVersion(s) witness "0"

  /** The caption of each token's toggle item. */
  function Label(v: VersionType): string {
    if v == "0" then "Plain"
    else if v == "1" then "Pipeline"
    else if v == "2" then "RAG"
    else "RAG-2"
  }

  /** The guard in `onValueChange`: the value passed on to `setVersion`, if any. */
  function Forwarded(value: string): (r: Option<VersionType>)
    ensures r.Some? <==> IsVersion(value)
    ensures r.Some? ==> r.value == value
  {
    if IsVersion(value) then Some(value) else None
  }

  /** The version after the group reports `value`. */
  function OnValueChange(version: VersionType, value: string): (next: VersionType)
    ensures IsVersion(value) ==> next == value
    ensures !IsVersion(value) ==> next == version
  {
    Forwarded(value).GetOr(version)
  }

  /** The type holds exactly the four tokens. */
  lemma VersionTokens(s: string)
    ensures IsVersion(s) <==> s in ["0", "1", "2", "3"]
  {
  }

  /** The label table is total and one-to-one, and these are its entries. */
  lemma LabelTable(a: VersionType, b: VersionType)
    ensures Label("0") == "Plain" && Label("1") == "Pipeline"
    ensures Label("2") == "RAG" && Label("3") == "RAG-2"
    ensures Label(a) == Label(b) <==> a == b
  {
  }

  /** Deselecting (the group reports "") or any other value keeps the version. */
  lemma DeselectKeepsVersion(version: VersionType)
    ensures OnValueChange(version, "") == version
  {
  }

  /** Choosing the token already current keeps the version. */
  lemma ReselectKeepsVersion(version: VersionType)
    ensures OnValueChange(version, version) == version
  {
  }
}
