/** The status, priority and blocking-level labels that the dashboard, the
    work-item pages, the editable table and the detail drawer render. Each is
    a total mapping from the stored text to a (text, colour) tag. */
module Labels {
  import opened Common
  import opened Schema

  datatype Tag = Tag(text: string, color: string)

  /** `getStatusText` / `getStatusColor` of the dashboard, the detail drawer
      and the planning modal: fixed labels for the three statuses; any other
      text shows itself with the colour 'default'. */
  function StatusText(status: string): (text: string)
    ensures IsStatusName(status) ==> text != status && |text| == 3
    ensures !IsStatusName(status) ==> text == status
  {
    match status
    case "open" => "待开始"
    case "in_progress" => "进行中"
    case "closed" => "已完成"
    case _ => status
  }

  function StatusColor(status: string): (color: string)
    ensures color == "default" <==> !IsStatusName(status)
  {
    match status
    case "open" => "gold"
    case "in_progress" => "blue"
    case "closed" => "green"
    case _ => "default"
  }

  predicate IsStatusName(s: string) {
    s == "open" || s == "in_progress" || s == "closed"
  }

  /** The three statuses get three different labels, and an unknown status
      is shown as itself in the neutral colour. */
  lemma StatusLabelsDistinguish(a: Status, b: Status, other: string)
    requires !IsStatusName(other)
    ensures a != b ==> StatusText(StatusName(a)) != StatusText(StatusName(b))
    ensures a != b ==> StatusColor(StatusName(a)) != StatusColor(StatusName(b))
    ensures StatusText(other) == other && StatusColor(other) == "default"
  {
  }

  /** The status column of the requirement and task lists and of the editable
      table: closed, then in_progress, and every other value as 'open'. */
  function ListStatusTag(status: string): (t: Tag)
    ensures var shown := if IsStatusName(status) then status else "open";
      t == Tag(StatusText(shown), StatusColor(shown))
  {
    if status == "closed" then Tag("已完成", "green")
    else if status == "in_progress" then Tag("进行中", "blue")
    else Tag("待开始", "gold")
  }

  /** The list column and the dashboard agree on every stored status; they
      differ only on text outside the enum, which the list shows as 'open'. */
  lemma ListStatusAgreesWithDashboard(s: Status, other: string)
    requires !IsStatusName(other)
    ensures ListStatusTag(StatusName(s)) == Tag(StatusText(StatusName(s)), StatusColor(StatusName(s)))
    ensures ListStatusTag(other) == ListStatusTag(StatusName(Open))
  {
  }

  /** The defect status badge: error / processing / success for the three
      statuses, and 'default' with empty text for anything else. */
  function DefectStatusBadge(status: string): (t: Tag)
    ensures t.text == "" <==> !IsStatusName(status)
    ensures t.color == "default" <==> !IsStatusName(status)
  {
    if status == "open" then Tag("待修复", "error")
    else if status == "in_progress" then Tag("修复中", "processing")
    else if status == "closed" then Tag("已修复", "success")
    else Tag("", "default")
  }

  lemma DefectBadgeCases(a: Status, b: Status, other: string)
    requires !IsStatusName(other)
    ensures a != b ==> DefectStatusBadge(StatusName(a)).text != DefectStatusBadge(StatusName(b)).text
    ensures DefectStatusBadge(StatusName(a)).text != ""
    ensures DefectStatusBadge(other) == Tag("", "default")
  {
  }

  /** The priority tag: high and medium are named, every other value
      (low, undefined, anything) shows as low in green. */
  function PriorityTag(v: Value): (t: Tag)
    ensures t.text in ["高", "中", "低"]
    ensures t.text == "低" <==> v != Str("high") && v != Str("medium")
  {
    if v == Str("high") then Tag("高", "red")
    else if v == Str("medium") then Tag("中", "orange")
    else Tag("低", "green")
  }

  lemma PriorityTagCases(a: Priority, b: Priority, v: Value)
    requires v != Str("high") && v != Str("medium")
    ensures a != b ==> PriorityTag(Str(PriorityName(a))) != PriorityTag(Str(PriorityName(b)))
    ensures PriorityTag(v) == PriorityTag(Str(PriorityName(Low)))
  {
  }

  /** The blocking-level tag: high, medium and low are named, every other
      value ('none', undefined, anything) shows as none in green. */
  function BlockingTag(v: Value): (t: Tag)
    ensures t.text in ["高", "中", "低", "无"]
    ensures t.text == "无" <==> v != Str("high") && v != Str("medium") && v != Str("low")
    ensures t.color == "green" <==> t.text == "无"
  {
    if v == Str("high") then Tag("高", "red")
    else if v == Str("medium") then Tag("中", "orange")
    else if v == Str("low") then Tag("低", "gold")
    else Tag("无", "green")
  }

  lemma BlockingTagCases(a: BlockingLevel, b: BlockingLevel, v: Value)
    requires v != Str("high") && v != Str("medium") && v != Str("low")
    ensures a != b ==> BlockingTag(Str(BlockingLevelName(a))) != BlockingTag(Str(BlockingLevelName(b)))
    ensures BlockingTag(v) == BlockingTag(Str(BlockingLevelName(NoBlocking)))
  {
  }
}
