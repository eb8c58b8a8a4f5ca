/** The badge classes of the task list table: one for a task's status and
    one for its priority. */
module TaskListTable {
  import opened JsText

  const GrayBadge := "bg-gray-100 text-gray-500 border border-gray-200"
  const GreenBadge := "bg-green-100 text-green-500 border border-green-200"
  const YellowBadge := "bg-yellow-100 text-yellow-500 border border-yellow-200"
  const BlueBadge := "bg-blue-100 text-blue-500 border border-blue-200"

  const HighBadge := "text-red-500 bg-red-100 border border-red-200"
  const MediumBadge := "text-amber-500 text-amber-100 border border-amber-200"
  const LowBadge := "text-green-500 text-green-100 border border-green-200"

  /** The statuses the status badge knows. */
  predicate KnownStatus(s: string) {
    s == "Completed" || s == "Pending" || s == "In Progress"
  }

  /** The priorities the priority badge knows. */
  predicate KnownPriority(p: string) {
    p == "High" || p == "Medium" || p == "Low"
  }

  /** `getStatusBadgeColor(status)`: gray for a missing status, otherwise the
      colour of the trimmed status, gray when it is not one of the three. */
  function StatusBadge(status: string): (cls: string)
    ensures status == "" ==> cls == GrayBadge
    ensures cls == GreenBadge <==> Trim(status) == "Completed"
    ensures cls == YellowBadge <==> Trim(status) == "Pending"
    ensures cls == BlueBadge <==> Trim(status) == "In Progress"
    ensures cls == GrayBadge <==> !KnownStatus(Trim(status))
  {
    if status == "" then GrayBadge
    else
      var t := Trim(status);
      if t == "Completed" then GreenBadge
      else if t == "Pending" then YellowBadge
      else if t == "In Progress" then BlueBadge
      else GrayBadge
  }

  /** `getPriorityBadgeColor(priority)`: an exact match on the priority, gray
      for anything else. */
  function PriorityBadge(priority: string): (cls: string)
    ensures cls == HighBadge <==> priority == "High"
    ensures cls == MediumBadge <==> priority == "Medium"
    ensures cls == LowBadge <==> priority == "Low"
    ensures cls == GrayBadge <==> !KnownPriority(priority)
  {
    if priority == "High" then HighBadge
    else if priority == "Medium" then MediumBadge
    else if priority == "Low" then LowBadge
    else GrayBadge
  }

  /** White space around a status never changes its badge: the badge of a
      status is the badge of its trim. */
  lemma StatusBadgeIgnoresPadding(status: string)
    ensures StatusBadge(Trim(status)) == StatusBadge(status)
  {
    TrimIdempotent(status);
  }

  /** A known status with white space around it gets that status's badge:
      `" Completed "` is shown green, like `"Completed"`. */
  lemma PaddedStatusKeepsBadge(pre: string, status: string, post: string)
    requires AllWhitespace(pre) && AllWhitespace(post) && KnownStatus(status)
    ensures StatusBadge(pre + status + post) == StatusBadge(status)
  {
    TrimPadded(pre, status, post);
    TrimOfTrimmed(status);
  }

  /** A priority that trimming would change is shown gray, known or not once
      trimmed: priorities are not trimmed, so `" High"` is gray while `"High"`
      is red. */
  lemma PaddedPriorityIsGray(priority: string)
    requires Trim(priority) != priority
    ensures PriorityBadge(priority) == GrayBadge
  {
    if KnownPriority(priority) {
      TrimOfTrimmed(priority);
    }
  }
}
