/** One brief: the lines it is rendered as, and what the patterns find in them. */
module BriefModel {
  import opened Options
  import opened Ascii
  import opened Decimals
  import opened BriefText

  datatype Brief = Brief(cls: string, title: string, finding: string, evidence: seq<nat>)
  datatype Parsed = Parsed(cls: string, title: string, finding: string, anchor: string, evidence: seq<nat>)

  type Names = map<nat, string>

  // ----- anchors -----------------------------------------------------------------------

  predicate IdChar(c: char) { IsLetter(c) || IsDigit(c) || c == '.' || c == '_' || c == '-' }

  predicate IsId(s: string) { s != "" && forall i | 0 <= i < |s| :: IdChar(s[i]) }

  /** Every run of characters no id may contain becomes one dash. */
  function Dashed(s: string, inRun: bool): (r: string)
    ensures forall i | 0 <= i < |r| :: IdChar(r[i])
  {
    if s == "" then ""
    else if IdChar(s[0]) then [s[0]] + Dashed(s[1..], false)
    else (if inRun then "" else "-") + Dashed(s[1..], true)
  }

  function DashStripped(s: string): (r: string)
    ensures forall c | c in r :: c in s
    ensures r != "" ==> r[0] != '-' && r[|r| - 1] != '-'
  {
    if s == "" then ""
    else if s[0] == '-' then DashStripped(s[1..])
    else if s[|s| - 1] == '-' then DashStripped(s[..|s| - 1])
    else s
  }

  /** `_anchor_safe` */
  function AnchorSafe(s: string): (r: string) {
    var out := Lower(DashStripped(Dashed(s, false)));
    if out == "" then "brief" else out
  }

  lemma AnchorIsId(s: string)
    ensures IsId(AnchorSafe(s)) && AnchorSafe(s)[0] != '-' && AnchorSafe(s)[|AnchorSafe(s)| - 1] != '-'
    ensures forall i | 0 <= i < |AnchorSafe(s)| :: !IsUpper(AnchorSafe(s)[i])
  {
    var d := Dashed(s, false);
    var t := DashStripped(d);
    forall i | 0 <= i < |t| ensures IdChar(t[i]) {
      assert t[i] in d;
    }
  }

  lemma {:induction false} DashedId(s: string, inRun: bool)
    requires forall i | 0 <= i < |s| :: IdChar(s[i])
    ensures Dashed(s, inRun) == s
  {
    if s != "" {
      DashedId(s[1..], false);
    }
  }

  /** An anchor is its own anchor. */
  lemma AnchorIsFixed(s: string)
    ensures AnchorSafe(AnchorSafe(s)) == AnchorSafe(s)
  {
    AnchorIsId(s);
    DashedId(AnchorSafe(s), false);
    assert Lower(AnchorSafe(s)) == AnchorSafe(s);
  }

  function Anchor(b: Brief): string { b.cls + "-" + AnchorSafe(b.title) }

  // ----- rendering one brief -----------------------------------------------------------

  predicate Named(names: Names, e: nat) { e in names && names[e] != "" }

  function Item(names: Names, e: nat): string {
    if Named(names, e) then "[[" + names[e] + "]] " + Ticked(e) else Ticked(e) + " (unresolved)"
  }

  function Ticked(e: nat): string { "`" + Decimal(e) + "`" }

  function Items(names: Names, es: seq<nat>): string {
    if es == [] then ""
    else Item(names, es[0]) + (if |es| == 1 then "" else ", ") + Items(names, es[1..])
  }

  function Unnamed(names: Names, es: seq<nat>): seq<nat> {
    if es == [] then [] else (if Named(names, es[0]) then [] else [es[0]]) + Unnamed(names, es[1..])
  }

  function Numbers(es: seq<nat>): string {
    if es == [] then ""
    else Decimal(es[0]) + (if |es| == 1 then "" else ", ") + Numbers(es[1..])
  }

  const BARE_1 := " evidence id(s) could not be resolved"
  const BARE_2 := " to a memory name and are listed bare"
  const BARE_3 := " rather than dropped: "

  function BareLine(es: seq<nat>): string { Decimal(|es|) + BARE_1 + BARE_2 + BARE_3 + Numbers(es) + "." }

  function Rels(names: Names, es: seq<nat>): seq<string> {
    if es == [] then []
    else (if Named(names, es[0]) then ["rel: evidence-for -> [[" + names[es[0]] + "]]"] else []) + Rels(names, es[1..])
  }

  function Heading(b: Brief): string { "### " + b.title + " {#" + Anchor(b) + "}" }

  function EvidenceText(names: Names, b: Brief): string {
    "Evidence (" + Decimal(|b.evidence|) + "): " + Items(names, b.evidence) + "."
  }

  function Core(names: Names, b: Brief): seq<string> { [Heading(b), "", b.finding, "", EvidenceText(names, b)] }

  function Rest(names: Names, b: Brief): seq<string> {
    var bare := Unnamed(names, b.evidence);
    (if bare == [] then [] else [BareLine(bare)]) + [""] + Rels(names, b.evidence) + [""]
  }

  function BriefLines(names: Names, b: Brief): seq<string> { Core(names, b) + Rest(names, b) }

  // ----- reading one brief -------------------------------------------------------------

  /** `[[` names `]]` leave the ids alone: no number between backticks. */
  predicate NoTickedNumber(s: string) {
    forall i, j | 0 <= i < j - 1 && j < |s| && s[i] == '`' && s[j] == '`' :: !AllDigits(s[i + 1..j])
  }

  predicate GoodName(s: string) { OneLine(s) && NoTickedNumber(s) }

  predicate GoodNames(names: Names) { forall e | e in names :: GoodName(names[e]) }

  /** Without white space, and without the brace that closes an anchor. */
  predicate Unbroken(s: string) { s != "" && forall i | 0 <= i < |s| :: !IsSpace(s[i]) && s[i] != '}' }

  /** What a brief must be like to be read back, whatever its title contains: `root` is skipped as a
    * class, and `###` would make the head of its section a brief. */
  predicate Readable(b: Brief) {
    && Unbroken(b.cls) && b.cls != "root" && b.cls != "###"
    && b.title != "" && OneLine(b.title)
    && b.finding != "" && OneLine(b.finding) && !("## " <= b.finding)
  }

  /** ` {#` with no closing brace behind it in the title: the title seems to end here. */
  predicate Opens(title: string, i: nat)
    requires i <= |title|
  {
    " {#" <= title[i..] && forall j | i + 3 <= j < |title| :: title[j] != '}'
  }

  function Cut(title: string, i: nat): (c: nat)
    requires i <= |title|
    ensures i <= c <= |title| && (c < |title| ==> Opens(title, c)) && forall j | i <= j < c :: !Opens(title, j)
    decreases |title| - i
  {
    if i == |title| || Opens(title, i) then i else Cut(title, i + 1)
  }

  /** The title is read back whole exactly when nothing in it looks like the start of an anchor. */
  predicate TitleCloses(title: string) { forall i | 1 <= i < |title| :: !Opens(title, i) }
}
