/**
 * The Tailwind class lookups of frontend/src/services/floodRiskAPI.js: the
 * upper-case risk levels the backend reports map to text and background
 * classes, anything else to grey.
 */
module FloodRiskApi {
  /** The class suffix shared by the two tables. */
  function Shade(level: string): (shade: string)
    ensures level in {"LOW", "MEDIUM", "HIGH", "CRITICAL"} <==> shade != "gray-500"
  {
    match level
    case "LOW" => "flood-low"
    case "MEDIUM" => "flood-medium"
    case "HIGH" => "flood-high"
    case "CRITICAL" => "flood-critical"
    case _ => "gray-500"
  }

  /** `getRiskColor`. */
  function GetRiskColor(level: string): (cls: string)
    ensures level == "LOW" ==> cls == "text-flood-low"
    ensures level == "MEDIUM" ==> cls == "text-flood-medium"
    ensures level == "HIGH" ==> cls == "text-flood-high"
    ensures level == "CRITICAL" ==> cls == "text-flood-critical"
    ensures level !in {"LOW", "MEDIUM", "HIGH", "CRITICAL"} ==> cls == "text-gray-500"
  {
    "text-" + Shade(level)
  }

  /** `getRiskBgColor`. */
  function GetRiskBgColor(level: string): (cls: string)
    ensures level == "LOW" ==> cls == "bg-flood-low"
    ensures level == "MEDIUM" ==> cls == "bg-flood-medium"
    ensures level == "HIGH" ==> cls == "bg-flood-high"
    ensures level == "CRITICAL" ==> cls == "bg-flood-critical"
    ensures level !in {"LOW", "MEDIUM", "HIGH", "CRITICAL"} ==> cls == "bg-gray-500"
  {
    "bg-" + Shade(level)
  }

  /** For every input the two classes name the same shade. */
  lemma ClassesAgree(level: string)
    ensures GetRiskColor(level)[|"text-"|..] == GetRiskBgColor(level)[|"bg-"|..]
  {
  }

  /** The lookup is case-sensitive: the map component's "Low" is not a key. */
  lemma CaseSensitive()
    ensures GetRiskColor("Low") == "text-gray-500" && GetRiskColor("low") == "text-gray-500"
  {
  }
}
