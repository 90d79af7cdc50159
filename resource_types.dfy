/** The resource-type lookups that the Categories and Library pages both
    define, identically: an icon and a badge colour per type, each with a
    default branch for unknown types. */
module ResourceTypes {

  /** The two icons a type can be shown with. */
  datatype Icon = BookOpen | FileText

  /** The three types the lookups know about. */
  predicate KnownType(t: string)
  {
    t == "book" || t == "notes" || t == "exam-paper"
  }

  /** The class of the default branch. */
  const MutedBadge: string := "bg-muted text-muted-foreground"

  /** `getTypeIcon`: notes and exam papers get the document icon; books and
      every unknown type get the open-book icon. */
  function TypeIcon(t: string): (icon: Icon)
    ensures icon == FileText <==> t == "notes" || t == "exam-paper"
  {
    match t
    case "book" => BookOpen
    case "notes" => FileText
    case "exam-paper" => FileText
    case _ => BookOpen
  }

  /** `getTypeBadgeColor`: a class of its own for each known type, and the
      muted class for every other type. */
  function TypeBadgeColor(t: string): (c: string)
    ensures c == MutedBadge <==> !KnownType(t)
  {
    match t
    case "book" => "bg-primary/10 text-primary"
    case "notes" => "bg-secondary/10 text-secondary"
    case "exam-paper" => "bg-accent/10 text-accent"
    case _ => MutedBadge
  }

  /** Two different known types never share a badge colour. */
  lemma BadgeColorsDistinct(t: string, u: string)
    requires KnownType(t) && KnownType(u) && t != u
    ensures TypeBadgeColor(t) != TypeBadgeColor(u)
  {
  }

  /** The badge label: `type.replace('-', ' ')`, which with a string pattern
      replaces only the first hyphen. */
  function TypeLabel(t: string): (shown: string)
    ensures |shown| == |t|
    ensures '-' !in t ==> shown == t
    ensures var k := FirstIndex(t, '-');
            k < |t| ==> shown[k] == ' ' && forall i :: 0 <= i < |t| && i != k ==> shown[i] == t[i]
  {
    ReplaceFirst(t, '-', ' ')
  }

  /** `indexOf` for one character: the position of its first occurrence, or
      the length of `s` when it does not occur. */
  function FirstIndex(s: string, c: char): (k: nat)
    ensures k <= |s|
    ensures forall i :: 0 <= i < k ==> s[i] != c
    ensures k < |s| ==> s[k] == c
    ensures k == |s| <==> c !in s
  {
    if s == [] then 0
    else if s[0] == c then 0
    else 1 + FirstIndex(s[1..], c)
  }

  /** `String.prototype.replace` with a one-character pattern: the first
      occurrence of `from`, if any, becomes `to`; nothing else changes. */
  function ReplaceFirst(s: string, from: char, to: char): (r: string)
    ensures |r| == |s|
    ensures from !in s ==> r == s
    ensures var k := FirstIndex(s, from);
            k < |s| ==> r[k] == to && forall i :: 0 <= i < |s| && i != k ==> r[i] == s[i]
  {
    var k := FirstIndex(s, from);
    if k == |s| then s else s[..k] + [to] + s[k + 1..]
  }

  /** The exam-paper type is shown as "exam paper". */
  lemma ExamPaperLabel(t: string)
    requires t == "exam-paper"
    ensures TypeLabel(t) == "exam paper"
  {
    assert t[4] == '-' && t[0] != '-' && t[1] != '-' && t[2] != '-' && t[3] != '-';
    assert FirstIndex(t, '-') == 4;
    assert TypeLabel(t) == t[..4] + " " + t[5..];
  }

  /** Every hyphen after the first one stays in the label. */
  lemma LaterHyphensKept(t: string)
    ensures forall i :: FirstIndex(t, '-') < i < |t| && t[i] == '-' ==> TypeLabel(t)[i] == '-'
  {
  }
}
