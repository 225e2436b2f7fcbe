/**
 * `format_crew_results` (app.py): turns the crew's raw transcript and the
 * customer's four form fields into the report shown to the customer.
 *
 * The report is a header with a customer profile extracted from the
 * free-text requirements, an optional ranked vehicle table, the transcript
 * verbatim, and one boilerplate section for each of five marker phrases
 * the transcript lacks.
 */
module CrewReport {
  import opened Wrappers
  import opened PyText

  const NotSpecified := "Not specified"

  /** The eight profile fields the requirements text can fill in. */
  datatype Slot =
    | Color | Mileage | MustHave | NiceToHave | Payment | IntendedUse | PurchaseDate | Special

  datatype Profile = Profile(
    color: string, mileage: string, mustHave: string, niceToHave: string,
    payment: string, intendedUse: string, purchaseDate: string, special: string)
  {
    function Get(s: Slot): string {
      match s
      case Color => color
      case Mileage => mileage
      case MustHave => mustHave
      case NiceToHave => niceToHave
      case Payment => payment
      case IntendedUse => intendedUse
      case PurchaseDate => purchaseDate
      case Special => special
    }

    /** The profile with slot `s` set to `v`. */
    function With(s: Slot, v: string): (q: Profile)
      ensures q.Get(s) == v
      ensures forall t :: t != s ==> q.Get(t) == Get(t)
    {
      match s
      case Color => this.(color := v)
      case Mileage => this.(mileage := v)
      case MustHave => this.(mustHave := v)
      case NiceToHave => this.(niceToHave := v)
      case Payment => this.(payment := v)
      case IntendedUse => this.(intendedUse := v)
      case PurchaseDate => this.(purchaseDate := v)
      case Special => this.(special := v)
    }
  }

  /** All eight slots "Not specified". */
  const EmptyProfile := Profile(NotSpecified, NotSpecified, NotSpecified, NotSpecified,
                                NotSpecified, NotSpecified, NotSpecified, NotSpecified)

  // The keyword rules, in the order the cascade tests them.
  const ColorWords: seq<string> := ["color", "black", "white", "red", "blue"]
  const MileageWords: seq<string> := ["mileage", "miles"]
  const FeatureWords: seq<string> := ["sunroof", "camera", "bluetooth"]
  const UrgencyWords: seq<string> := ["must", "required"]
  const PaymentWords: seq<string> := ["cash", "loan", "finance"]
  const UseWords: seq<string> := ["commute", "work", "family"]
  const TimeWords: seq<string> := ["week", "month", "day"]
  const TitleWords: seq<string> := ["title", "clean"]

  /** Some keyword of `words` occurs in `part`: `'a' in part or 'b' in part or ...`. */
  predicate MentionsAny(part: string, words: seq<string>)
    decreases |words|
  {
    words != [] && (Contains(part, words[0]) || MentionsAny(part, words[1..]))
  }

  /** The `or` chain holds exactly when one of the keywords occurs. */
  lemma {:induction false} MentionsAnyIff(part: string, words: seq<string>)
    ensures MentionsAny(part, words) <==> exists i :: 0 <= i < |words| && Contains(part, words[i])
    decreases |words|
  {
    if words != [] {
      MentionsAnyIff(part, words[1..]);
      if exists i :: 0 <= i < |words| && Contains(part, words[i]) {
        var i :| 0 <= i < |words| && Contains(part, words[i]);
        if i > 0 {
          assert words[1..][i - 1] == words[i];
        }
      }
    }
  }

  /** One comma-separated part as the cascade sees it: `part.strip().lower()`. */
  function Normalize(part: string): string {
    Lower(Strip(part))
  }

  /**
   * The slot the keyword cascade assigns a normalized part to, if any:
   * colour, mileage, feature (must-have when it says "must" or "required",
   * nice-to-have otherwise), payment, use, time and title, first match wins.
   */
  function Classify(part: string): Option<Slot> {
    Cascade(Hit(part))
  }

  /** The keyword test the cascade applies to a part, one keyword list at a time. */
  function Hit(part: string): seq<string> -> bool {
    words => MentionsAny(part, words)
  }

  /** The `if`/`elif` cascade over the keyword test `hit`; the first list that hits wins. */
  function Cascade(hit: seq<string> -> bool): Option<Slot> {
    if hit(ColorWords) then Some(Color)
    else if hit(MileageWords) then Some(Mileage)
    else if hit(FeatureWords) then
      (if hit(UrgencyWords) then Some(MustHave) else Some(NiceToHave))
    else if hit(PaymentWords) then Some(Payment)
    else if hit(UseWords) then Some(IntendedUse)
    else if hit(TimeWords) then Some(PurchaseDate)
    else if hit(TitleWords) then Some(Special)
    else None
  }

  /**
   * The value a part stores in its slot: for colour and mileage, a part
   * with a ':' stores the stripped text after its last ':'; every other
   * part is stored whole.
   */
  function SlotValue(s: Slot, part: string): string {
    if (s == Color || s == Mileage) && ':' in part then Strip(LastField(part, ':')) else part
  }

  /**
   * A colour or mileage part with a ':' stores a shorter value free of ':';
   * every other part is stored unchanged.
   */
  lemma SlotValueShape(s: Slot, part: string)
    ensures var r := SlotValue(s, part);
      && (!((s == Color || s == Mileage) && ':' in part) ==> r == part)
      && ((s == Color || s == Mileage) && ':' in part ==> ':' !in r && |r| < |part|)
  {
    if (s == Color || s == Mileage) && ':' in part {
      var f := LastField(part, ':');
      LastFieldShape(part, ':');
      var v := Strip(f);
      forall i | 0 <= i < |v| ensures v[i] != ':' {
        assert v[i] == f[LeadingSpaces(f) + i];
      }
    }
  }

  /** Stored values carry no upper-case letter when the part has none. */
  lemma SlotValueNoUpper(s: Slot, part: string)
    requires NoUpper(part)
    ensures NoUpper(SlotValue(s, part))
  {
    if (s == Color || s == Mileage) && ':' in part {
      var f := LastField(part, ':');
      LastFieldShape(part, ':');
      EndsWithTail(part, ':', f);
      NoUpperSlice(part, |part| - |f|, |part|);
      StripNoUpper(f);
    }
  }

  lemma NoUpperSlice(s: string, lo: int, hi: int)
    requires 0 <= lo <= hi <= |s| && NoUpper(s)
    ensures NoUpper(s[lo..hi])
  {
    forall i | 0 <= i < hi - lo ensures !IsUpper(s[lo..hi][i]) {
      assert s[lo..hi][i] == s[lo + i];
    }
  }

  lemma StripNoUpper(s: string)
    requires NoUpper(s)
    ensures NoUpper(Strip(s))
  {
    var lo := LeadingSpaces(s);
    NoUpperSlice(s, lo, lo + |Strip(s)|);
  }

  /** The raw part `raw` is classified into slot `s`. */
  predicate ClassifiedAs(raw: string, s: Slot) {
    Classify(Normalize(raw)) == Some(s)
  }

  /** The comma-separated parts: `user_requirements.split(',') if user_requirements else []`. */
  function RequirementParts(requirements: string): seq<string> {
    if requirements == [] then [] else Split(requirements, ',')
  }

  /**
   * The value the left-to-right scan leaves in slot `s` after `parts`: the
   * value of the last part classified into `s`, or "Not specified".
   */
  function LastMatch(parts: seq<string>, s: Slot): string {
    if parts == [] then NotSpecified
    else
      var raw := parts[|parts| - 1];
      if ClassifiedAs(raw, s) then SlotValue(s, Normalize(raw)) else LastMatch(parts[..|parts| - 1], s)
  }

  /** One turn of the extraction loop: the part overwrites the slot it is classified into. */
  function Apply(p: Profile, raw: string): Profile {
    var part := Normalize(raw);
    match Classify(part)
    case Some(s) => p.With(s, SlotValue(s, part))
    case None => p
  }

  /** The profile the extraction loop builds from `parts`, left to right. */
  function Scan(parts: seq<string>): Profile {
    if parts == [] then EmptyProfile
    else Apply(Scan(parts[..|parts| - 1]), parts[|parts| - 1])
  }

  /** The profile of `format_crew_results` for a requirements text. */
  function ProfileOf(requirements: string): Profile {
    Scan(RequirementParts(requirements))
  }

  /** The scan of one more part applies that part to the scan so far. */
  lemma ScanStep(parts: seq<string>, i: int)
    requires 0 <= i < |parts|
    ensures Scan(parts[..i + 1]) == Apply(Scan(parts[..i]), parts[i])
  {
    assert parts[..i + 1][..i] == parts[..i];
  }

  /** Each slot of the scanned profile holds the value of the last part classified into it. */
  lemma {:induction false} ScanIsLastMatch(parts: seq<string>, s: Slot)
    ensures Scan(parts).Get(s) == LastMatch(parts, s)
  {
    if parts != [] {
      ScanIsLastMatch(parts[..|parts| - 1], s);
    }
  }

  /**
   * The extraction loop of `format_crew_results`: the eight slots start as
   * "Not specified" and each part overwrites at most one of them, so every
   * slot ends up holding the value of the last part classified into it.
   */
  method ExtractProfile(requirements: string) returns (p: Profile)
    ensures p == ProfileOf(requirements)
    ensures forall s :: p.Get(s) == LastMatch(RequirementParts(requirements), s)
  {
    var parts := RequirementParts(requirements);
    p := EmptyProfile;
    for i := 0 to |parts|
      invariant p == Scan(parts[..i])
    {
      ScanStep(parts, i);
      var part := Normalize(parts[i]);
      match Classify(part)
      case Some(s) => p := p.With(s, SlotValue(s, part));
      case None =>
    }
    assert parts[..|parts|] == parts;
    forall s ensures p.Get(s) == LastMatch(parts, s) {
      ScanIsLastMatch(parts, s);
    }
  }

  // ---------------------------------------------------------------------
  // Properties of the keyword cascade

  /** The seven keyword rules in the order the cascade tests them. */
  const Rules: seq<seq<string>> :=
    [ColorWords, MileageWords, FeatureWords, PaymentWords, UseWords, TimeWords, TitleWords]

  /** The rule that leads to slot `s`; both feature slots share rule 2. */
  function RuleIndex(s: Slot): (k: nat)
    ensures k < |Rules|
  {
    match s
    case Color => 0
    case Mileage => 1
    case MustHave => 2
    case NiceToHave => 2
    case Payment => 3
    case IntendedUse => 4
    case PurchaseDate => 5
    case Special => 6
  }

  /** The first rule, from `k` on, that `hit` accepts; `|Rules|` if none does. */
  function FirstRule(hit: seq<string> -> bool, k: nat): (r: nat)
    requires k <= |Rules|
    ensures k <= r <= |Rules|
    decreases |Rules| - k
  {
    if k == |Rules| then k
    else if hit(Rules[k]) then k
    else FirstRule(hit, k + 1)
  }

  /**
   * The cascade is first-match-wins over the rule table: it picks no slot
   * exactly when no rule hits, otherwise the slot of the first rule that
   * hits, and a feature part is must-have exactly when the urgency list hits.
   */
  lemma CascadeIsFirstRule(hit: seq<string> -> bool)
    ensures Cascade(hit) == None <==> FirstRule(hit, 0) == |Rules|
    ensures forall s :: Cascade(hit) == Some(s) ==> RuleIndex(s) == FirstRule(hit, 0)
    ensures FirstRule(hit, 0) == 2 ==> (Cascade(hit) == Some(MustHave) <==> hit(UrgencyWords))
  {
    assert Rules[0] == ColorWords && Rules[1] == MileageWords && Rules[2] == FeatureWords;
    assert Rules[3] == PaymentWords && Rules[4] == UseWords && Rules[5] == TimeWords;
    assert Rules[6] == TitleWords;
    var f := FirstRule(hit, 0);
    if !hit(ColorWords) {
      assert f == FirstRule(hit, 1);
      if !hit(MileageWords) {
        assert f == FirstRule(hit, 2);
        if !hit(FeatureWords) {
          assert f == FirstRule(hit, 3);
          if !hit(PaymentWords) {
            assert f == FirstRule(hit, 4);
            if !hit(UseWords) {
              assert f == FirstRule(hit, 5);
              if !hit(TimeWords) {
                assert f == FirstRule(hit, 6);
              }
            }
          }
        }
      }
    }
  }

  /**
   * Classifying a part is first-match-wins over the rule table: no slot
   * exactly when no rule's keywords occur, otherwise the slot of the first
   * rule whose keywords occur, and a feature part is must-have exactly when
   * it names an urgency word.
   */
  lemma ClassifyIsFirstRule(part: string)
    ensures Classify(part) == None <==> FirstRule(Hit(part), 0) == |Rules|
    ensures forall s :: Classify(part) == Some(s) ==> RuleIndex(s) == FirstRule(Hit(part), 0)
    ensures FirstRule(Hit(part), 0) == 2 ==>
      (Classify(part) == Some(MustHave) <==> MentionsAny(part, UrgencyWords))
  {
    CascadeIsFirstRule(Hit(part));
    assert Hit(part)(UrgencyWords) == MentionsAny(part, UrgencyWords);
  }

  /** A part that says "required" holds "red", so it always lands in the colour slot. */
  lemma RequiredIsColor(part: string)
    requires Contains(part, "required")
    ensures Classify(part) == Some(Color)
  {
    OccursAtContains("required", "red", 5);
    ContainsTransitive(part, "required", "red");
    MentionsAnyIff(part, ColorWords);
    assert ColorWords[3] == "red";
    assert Hit(part)(ColorWords);
  }

  /** A part that says "bluetooth" holds "blue", so it always lands in the colour slot. */
  lemma BluetoothIsColor(part: string)
    requires Contains(part, "bluetooth")
    ensures Classify(part) == Some(Color)
  {
    OccursAtContains("bluetooth", "blue", 0);
    ContainsTransitive(part, "bluetooth", "blue");
    MentionsAnyIff(part, ColorWords);
    assert ColorWords[4] == "blue";
    assert Hit(part)(ColorWords);
  }

  /** Only "must" can make a feature part must-have: the "required" test is never reached. */
  lemma MustHaveSaysMust(part: string)
    requires Classify(part) == Some(MustHave)
    ensures Contains(part, "must")
  {
    assert Hit(part)(UrgencyWords) == MentionsAny(part, UrgencyWords);
    MentionsAnyIff(part, UrgencyWords);
    var i :| 0 <= i < |UrgencyWords| && Contains(part, UrgencyWords[i]);
    if i == 1 {
      RequiredIsColor(part);
      assert false;
    }
  }

  // ---------------------------------------------------------------------
  // Properties of the extracted profile

  lemma NormalizeNoUpper(raw: string)
    ensures NoUpper(Normalize(raw))
  {
  }

  /** A value stored from a part never equals the "Not specified" placeholder. */
  lemma StoredValueIsNotPlaceholder(s: Slot, raw: string)
    ensures SlotValue(s, Normalize(raw)) != NotSpecified
  {
    NormalizeNoUpper(raw);
    SlotValueNoUpper(s, Normalize(raw));
    assert IsUpper(NotSpecified[0]);
  }

  /** One step of LastMatch: the last part decides, if it is classified into the slot. */
  lemma LastMatchUnfold(parts: seq<string>, s: Slot)
    requires parts != []
    ensures var last := parts[|parts| - 1];
      LastMatch(parts, s) == if ClassifiedAs(last, s) then SlotValue(s, Normalize(last))
                             else LastMatch(parts[..|parts| - 1], s)
  {
  }

  lemma {:induction false} LastMatchNone(parts: seq<string>, s: Slot)
    requires forall i :: 0 <= i < |parts| ==> !ClassifiedAs(parts[i], s)
    ensures LastMatch(parts, s) == NotSpecified
  {
    if parts != [] {
      var init := parts[..|parts| - 1];
      assert forall i :: 0 <= i < |init| ==> init[i] == parts[i];
      LastMatchUnfold(parts, s);
      LastMatchNone(init, s);
    }
  }

  lemma LastMatchSetByLast(parts: seq<string>, s: Slot)
    requires parts != [] && ClassifiedAs(parts[|parts| - 1], s)
    ensures LastMatch(parts, s) != NotSpecified
  {
    var last := parts[|parts| - 1];
    LastMatchUnfold(parts, s);
    StoredValueIsNotPlaceholder(s, last);
  }

  lemma {:induction false} LastMatchSome(parts: seq<string>, s: Slot, i: int)
    requires 0 <= i < |parts| && ClassifiedAs(parts[i], s)
    ensures LastMatch(parts, s) != NotSpecified
  {
    if i == |parts| - 1 || ClassifiedAs(parts[|parts| - 1], s) {
      LastMatchSetByLast(parts, s);
    } else {
      var init := parts[..|parts| - 1];
      LastMatchUnfold(parts, s);
      assert i < |init| && init[i] == parts[i];
      LastMatchSome(init, s, i);
    }
  }

  /** A slot stays "Not specified" exactly when no part is classified into it. */
  lemma LastMatchUnset(parts: seq<string>, s: Slot)
    ensures LastMatch(parts, s) == NotSpecified
        <==> forall i :: 0 <= i < |parts| ==> !ClassifiedAs(parts[i], s)
  {
    if forall i :: 0 <= i < |parts| ==> !ClassifiedAs(parts[i], s) {
      LastMatchNone(parts, s);
    } else {
      var i :| 0 <= i < |parts| && ClassifiedAs(parts[i], s);
      LastMatchSome(parts, s, i);
    }
  }

  /** A slot holds the value of the last part classified into it. */
  lemma {:induction false} LastMatchIsLatest(parts: seq<string>, s: Slot, i: int)
    requires 0 <= i < |parts|
    requires ClassifiedAs(parts[i], s)
    requires forall j :: i < j < |parts| ==> !ClassifiedAs(parts[j], s)
    ensures LastMatch(parts, s) == SlotValue(s, Normalize(parts[i]))
    decreases |parts|
  {
    if i < |parts| - 1 {
      var init := parts[..|parts| - 1];
      LaterPartsOfPrefix(parts, s, i);
      LastMatchIsLatest(init, s, i);
      LastMatchUnfold(parts, s);
    } else {
      LastMatchUnfold(parts, s);
    }
  }

  /** Dropping the last part keeps part `i` and the parts after it that miss slot `s`. */
  lemma LaterPartsOfPrefix(parts: seq<string>, s: Slot, i: int)
    requires 0 <= i < |parts| - 1
    requires forall j :: i < j < |parts| ==> !ClassifiedAs(parts[j], s)
    ensures var init := parts[..|parts| - 1];
      && init[i] == parts[i]
      && (forall j :: i < j < |init| ==> !ClassifiedAs(init[j], s))
      && !ClassifiedAs(parts[|parts| - 1], s)
  {
    var init := parts[..|parts| - 1];
    assert forall j :: i < j < |init| ==> init[j] == parts[j];
  }

  // ---------------------------------------------------------------------
  // The ranked vehicle table

  /** The manufacturers whose names mark a line as a vehicle line. */
  const Brands: seq<string> :=
    ["nissan", "toyota", "honda", "hyundai", "mazda", "subaru", "ford", "chevrolet", "volkswagen", "kia"]

  predicate MentionsBrand(line: string) {
    MentionsAny(Lower(line), Brands)
  }

  /** The lines satisfying `keep`, in their original order. */
  function Filter(lines: seq<string>, keep: string -> bool): (r: seq<string>)
    ensures |r| <= |lines|
  {
    if lines == [] then []
    else
      var last := lines[|lines| - 1];
      Filter(lines[..|lines| - 1], keep) + if keep(last) then [last] else []
  }

  /** `Filter` keeps exactly the lines satisfying `keep`. */
  lemma {:induction false} FilterMembers(lines: seq<string>, keep: string -> bool, x: string)
    ensures x in Filter(lines, keep) <==> x in lines && keep(x)
  {
    if lines != [] {
      var init := lines[..|lines| - 1];
      FilterMembers(init, keep, x);
      assert lines == init + [lines[|lines| - 1]];
    }
  }

  /** Filtering distributes over concatenation. */
  lemma {:induction false} FilterAppend(a: seq<string>, b: seq<string>, keep: string -> bool)
    ensures Filter(a + b, keep) == Filter(a, keep) + Filter(b, keep)
    decreases |b|
  {
    if b == [] {
      assert a + b == a;
    } else {
      var init := b[..|b| - 1];
      FilterAppend(a, init, keep);
      assert (a + b)[..|a + b| - 1] == a + init;
    }
  }

  lemma FilterStep(lines: seq<string>, keep: string -> bool, i: int)
    requires 0 <= i < |lines|
    ensures keep(lines[i]) ==> Filter(lines[..i + 1], keep) == Filter(lines[..i], keep) + [lines[i]]
    ensures !keep(lines[i]) ==> Filter(lines[..i + 1], keep) == Filter(lines[..i], keep)
  {
    assert lines[..i + 1][..i] == lines[..i];
  }

  /** The lines that mention a manufacturer, in their original order. */
  function BrandLines(lines: seq<string>): seq<string> {
    Filter(lines, MentionsBrand)
  }

  /** `BrandLines` keeps exactly the lines that mention a manufacturer. */
  lemma BrandLinesMembers(lines: seq<string>, x: string)
    ensures x in BrandLines(lines) <==> x in lines && MentionsBrand(x)
  {
    FilterMembers(lines, MentionsBrand, x);
  }

  function Take(s: seq<string>, n: nat): (r: seq<string>)
    ensures |r| <= n && |r| <= |s| && r == s[..|r|]
    ensures |s| <= n ==> r == s
    ensures |s| > n ==> |r| == n
  {
    if |s| <= n then s else s[..n]
  }

  /** Placeholder cells of a vehicle line with fewer than six '|' fields. */
  const PlaceholderCells := " | $TBD | TBD | TBD | TBD | TBD |\n"

  /** The opening cell of the row ranked `rank`. */
  function RankCell(rank: nat): string {
    "| " + DecimalString(rank) + " | "
  }

  /** Stripped fields separated by " | ". */
  function JoinCells(fields: seq<string>): string {
    if fields == [] then []
    else if |fields| == 1 then Strip(fields[0])
    else JoinCells(fields[..|fields| - 1]) + " | " + Strip(fields[|fields| - 1])
  }

  /**
   * The rest of a vehicle line's row: its first six '|' fields, stripped,
   * or the stripped line followed by placeholder cells when it has fewer
   * than six fields.
   */
  function RowCells(line: string): string {
    var parts := Split(line, '|');
    if |parts| >= 6 then JoinCells(parts[..6]) + " |\n"
    else Strip(line) + PlaceholderCells
  }

  /** One table row with rank `rank`. */
  function TableRow(rank: nat, line: string): string {
    RankCell(rank) + RowCells(line)
  }

  /**
   * A row opens with its rank and, for a line with fewer than six fields,
   * keeps the whole stripped line and closes with the placeholder cells.
   */
  lemma TableRowShape(rank: nat, line: string)
    ensures StartsWith(TableRow(rank, line), RankCell(rank))
    ensures |Split(line, '|')| < 6 ==>
      EndsWith(TableRow(rank, line), PlaceholderCells)
      && Contains(TableRow(rank, line), Strip(line))
  {
    var lead := RankCell(rank);
    StartsWithAppend(lead, RowCells(line));
    if |Split(line, '|')| < 6 {
      var st := Strip(line);
      AppendAssoc(lead, st, PlaceholderCells);
      EndsWithAppend(lead + st, PlaceholderCells);
      ContainsSelf(st);
      ContainsInConcat(lead, st, PlaceholderCells, st);
    }
  }

  /** `row(1, lines[0]), row(2, lines[1]), ...`: each line with its rank. */
  function Numbered(lines: seq<string>, row: (nat, string) -> string): (r: seq<string>)
    ensures |r| == |lines|
  {
    if lines == [] then []
    else Numbered(lines[..|lines| - 1], row) + [row(|lines|, lines[|lines| - 1])]
  }

  /** Entry k of `Numbered` holds line k with rank k + 1. */
  lemma {:induction false} NumberedAt(lines: seq<string>, row: (nat, string) -> string, k: int)
    requires 0 <= k < |lines|
    ensures Numbered(lines, row)[k] == row(k + 1, lines[k])
  {
    var n := |lines|;
    if k < n - 1 {
      var init := lines[..n - 1];
      NumberedAt(init, row, k);
      assert Numbered(lines, row)[k] == Numbered(init, row)[k];
    }
  }

  lemma NumberedStep(ls: seq<string>, row: (nat, string) -> string, x: string)
    ensures Numbered(ls + [x], row) == Numbered(ls, row) + [row(|ls| + 1, x)]
  {
    assert (ls + [x])[..|ls|] == ls;
  }

  /** The table rows for `lines`, ranked 1, 2, ... in order. */
  function RankedRows(lines: seq<string>): seq<string> {
    Numbered(lines, TableRow)
  }

  /** Row k holds line k with rank k + 1. */
  lemma RankedRowsAt(lines: seq<string>, k: int)
    requires 0 <= k < |lines|
    ensures RankedRows(lines)[k] == TableRow(k + 1, lines[k])
  {
    NumberedAt(lines, TableRow, k);
  }

  /** The rows written one after the other. */
  function Concat(rows: seq<string>): string {
    if rows == [] then [] else Concat(rows[..|rows| - 1]) + rows[|rows| - 1]
  }

  const TableHeading :=
    "Top 10 Recommended Vehicles\n"
    + "| Rank | Vehicle Model | Price | Mileage | Location | Seller Type | Link |\n"
    + "|------|-----------------------------|--------|---------|------------------|------------------|------------------------------------------------|\n"

  /** The first ten vehicle lines of the transcript, in order. */
  function TableLines(transcript: string): seq<string> {
    Take(BrandLines(Split(transcript, '\n')), 10)
  }

  /** The table block: heading, one ranked row per selected line, and a blank line. */
  function VehicleTable(transcript: string): string {
    TableHeading + Concat(RankedRows(TableLines(transcript))) + "\n"
  }

  /**
   * The table lists the first min(10, n) of the n vehicle lines of the
   * transcript, in order, with ranks 1 to that number.
   */
  lemma VehicleTableRows(transcript: string)
    ensures var all := BrandLines(Split(transcript, '\n'));
      var chosen := TableLines(transcript);
      && |chosen| <= 10
      && (|chosen| == 10 || chosen == all)
      && chosen == all[..|chosen|]
      && |RankedRows(chosen)| == |chosen|
      && forall k :: 0 <= k < |chosen| ==>
           StartsWith(RankedRows(chosen)[k], RankCell(k + 1))
  {
    var chosen := TableLines(transcript);
    forall k | 0 <= k < |chosen|
      ensures StartsWith(RankedRows(chosen)[k], RankCell(k + 1))
    {
      RankedRowsAt(chosen, k);
      TableRowShape(k + 1, chosen[k]);
    }
  }

  lemma AppendAssoc(a: string, b: string, c: string)
    ensures (a + b) + c == a + (b + c)
  {
  }

  lemma ConcatStep(rows: seq<string>, row: string)
    ensures Concat(rows + [row]) == Concat(rows) + row
  {
    assert (rows + [row])[..|rows|] == rows;
  }

  /** Numbering one more line adds its row, ranked after the others, at the end of the rows. */
  lemma RowsStep(seen: seq<string>, row: (nat, string) -> string, line: string)
    ensures Concat(Numbered(seen + [line], row)) == Concat(Numbered(seen, row)) + row(|seen| + 1, line)
  {
    NumberedStep(seen, row, line);
    ConcatStep(Numbered(seen, row), row(|seen| + 1, line));
  }

  /** Once ten lines are kept, the remaining lines add nothing to the first ten. */
  lemma FilterStopsAtTen(lines: seq<string>, keep: string -> bool, i: int)
    requires 0 <= i <= |lines| && |Filter(lines[..i], keep)| == 10
    ensures Take(Filter(lines, keep), 10) == Filter(lines[..i], keep)
  {
    FilterAppend(lines[..i], lines[i..], keep);
    assert lines[..i] + lines[i..] == lines;
  }

  /**
   * The table loop of `format_crew_results`, over the line test `keep` and
   * the row format `row`: walk the lines, add a numbered row for each kept
   * line, and stop after the tenth row.
   */
  method NumberFirstTen(lines: seq<string>, keep: string -> bool, row: (nat, string) -> string)
    returns (rows: string)
    ensures rows == Concat(Numbered(Take(Filter(lines, keep), 10), row))
  {
    rows := "";
    var rank := 1;
    var i := 0;
    ghost var seen: seq<string> := [];
    while i < |lines|
      invariant 0 <= i <= |lines|
      invariant seen == Filter(lines[..i], keep)
      invariant rank == |seen| + 1 <= 10
      invariant rows == Concat(Numbered(seen, row))
    {
      var line := lines[i];
      FilterStep(lines, keep, i);
      if keep(line) {
        RowsStep(seen, row, line);
        rows := rows + row(rank, line);
        rank := rank + 1;
        seen := seen + [line];
        if rank > 10 {
          FilterStopsAtTen(lines, keep, i + 1);
          return;
        }
      }
      i := i + 1;
    }
    assert lines[..i] == lines;
  }

  /** The table block: the heading, a ranked row per vehicle line (ten at most) and a blank line. */
  method RenderVehicleTable(transcript: string) returns (table: string)
    ensures table == VehicleTable(transcript)
  {
    var rows := NumberFirstTen(Split(transcript, '\n'), MentionsBrand, TableRow);
    table := TableHeading + rows + "\n";
  }

  // ---------------------------------------------------------------------
  // The standard sections

  /** The five sections appended when the transcript lacks their marker phrase. */
  datatype Section = DetailedReasons | OutOfState | Negotiation | Inspection | FinalRecommendations

  /** The phrase whose presence in the transcript suppresses the section. */
  function Marker(k: Section): string {
    match k
    case DetailedReasons => "Detailed Reasons"
    case OutOfState => "Out-of-State Registration"
    case Negotiation => "Negotiation Strategies"
    case Inspection => "Inspection Checklists"
    case FinalRecommendations => "Final Recommendations"
  }

  /**
   * The section's text after "\n\n" and its marker phrase, line by line;
   * `state` is the customer's state.
   */
  function SectionLines(k: Section, state: string): seq<string> {
    match k
    case DetailedReasons => DetailedReasonsLines
    case OutOfState => [
      " Requirements\n",
      "For vehicles purchased outside " + state + ", the following requirements must be met:\n"]
      + OutOfStateRules + [
      "Process: Visit the " + state + " DMV website for step-by-step instructions.\n"]
    case Negotiation => NegotiationLines
    case Inspection => InspectionLines
    case FinalRecommendations => FinalRecommendationsLines
  }

  const DetailedReasonsLines: seq<string> := [
    " to Buy Each Vehicle\n",
    "Detailed analysis of each recommended vehicle will be provided based on the research.\n"]

  const OutOfStateRules: seq<string> := [
    "Documentation: Bill of sale, title transfer documentation, and any loan agreements if applicable.\n",
    "Fees: Expect to pay registration fees and sales tax based on the purchase price.\n",
    "Inspection: Some vehicles may require a smog check before registration.\n",
    "Timeline: Registration should occur within 10 days of purchase to avoid penalties.\n"]

  const NegotiationLines: seq<string> := [
    "\n",
    "| Vehicle Model | Negotiation Range | Suggested Offer Price |\n",
    "|---------------------------|---------------------|-----------------------|\n",
    "| [Vehicle] | [Range] | [Suggested Price] |\n",
    "\nTips for Negotiation:\n",
    "Research market values and be prepared to justify your offer.\n",
    "Highlight any issues found during inspections as leverage.\n",
    "Be ready to walk away if the deal doesn't meet your budget.\n"]

  const InspectionLines: seq<string> := [
    "\n",
    "Exterior Inspection\n",
    "Body condition (dents, scratches)\n",
    "Paint consistency\n",
    "Tire tread and wear\n",
    "Functional lights and signals\n",
    "\nInterior Inspection\n",
    "Seat condition\n",
    "Dashboard functionality\n",
    "Air conditioning and heating\n",
    "Infotainment system operation\n",
    "\nEngine and Mechanical Components\n",
    "Fluid levels\n",
    "Signs of leaks\n",
    "Battery condition\n",
    "Brake responsiveness\n"]

  const FinalRecommendationsLines: seq<string> := [
    "\n",
    "Next Steps:\n",
    "Research and contact sellers for preferred vehicles.\n",
    "Schedule inspections and test drives.\n",
    "Prepare negotiation strategies based on research.\n",
    "Complete necessary paperwork for out-of-state registration if applicable.\n",
    "Finalize purchase before the desired purchase date.\n",
    "\nBy following this structured approach, you can confidently navigate the car buying process and select a vehicle that meets your needs and budget.\n"]

  /** The section's text after "\n\n" and its marker phrase. */
  function SectionBody(k: Section, state: string): string {
    Concat(SectionLines(k, state))
  }

  /** The boilerplate text of a section. */
  function Boilerplate(k: Section, state: string): (r: string)
    ensures Contains(r, Marker(k))
  {
    var m := Marker(k);
    ContainsSelf(m);
    ContainsInConcat("\n\n", m, SectionBody(k, state), m);
    "\n\n" + m + SectionBody(k, state)
  }

  /** The section's text if the transcript lacks its marker, nothing otherwise. */
  function SectionIfMissing(transcript: string, k: Section, state: string): string {
    if Contains(transcript, Marker(k)) then "" else Boilerplate(k, state)
  }

  /** The sections in the order `format_crew_results` considers them. */
  const AllSections := [DetailedReasons, OutOfState, Negotiation, Inspection, FinalRecommendations]

  /** The texts `f(k)` for the sections `ks`, one after the other. */
  function ConcatMap(ks: seq<Section>, f: Section -> string): string {
    if ks == [] then []
    else ConcatMap(ks[..|ks| - 1], f) + f(ks[|ks| - 1])
  }

  /** Everything appended after the transcript: each section whose marker it lacks, in order. */
  function MissingSections(transcript: string, state: string): string {
    ConcatMap(AllSections, MissingText(transcript, state))
  }

  /** `SectionIfMissing` for a fixed transcript and state, as a function of the section. */
  function MissingText(transcript: string, state: string): Section -> string {
    k => SectionIfMissing(transcript, k, state)
  }

  /** What occurs in the text of one of the sections occurs in the concatenation. */
  lemma {:induction false} ConcatMapCovers(ks: seq<Section>, f: Section -> string, k: Section, m: string)
    requires k in ks && Contains(f(k), m)
    ensures Contains(ConcatMap(ks, f), m)
  {
    var init := ks[..|ks| - 1];
    var last := ks[|ks| - 1];
    if k == last {
      ContainsRight(ConcatMap(init, f), f(k), m);
    } else {
      assert k in init by {
        var j :| 0 <= j < |ks| && ks[j] == k;
        assert j < |init| && init[j] == k;
      }
      ConcatMapCovers(init, f, k, m);
      ContainsLeft(ConcatMap(init, f), f(last), m);
    }
  }

  /** The concatenation is empty when every section's text is. */
  lemma {:induction false} ConcatMapEmpty(ks: seq<Section>, f: Section -> string)
    requires forall k :: k in ks ==> f(k) == []
    ensures ConcatMap(ks, f) == []
  {
    if ks != [] {
      var init := ks[..|ks| - 1];
      assert forall k :: k in init ==> k in ks;
      ConcatMapEmpty(init, f);
    }
  }

  /** The concatenation over a prefix grows by the next section's text. */
  lemma ConcatMapPrefix(ks: seq<Section>, f: Section -> string, n: int)
    requires 0 < n <= |ks|
    ensures ConcatMap(ks[..n], f) == ConcatMap(ks[..n - 1], f) + f(ks[n - 1])
  {
    assert ks[..n][..n - 1] == ks[..n - 1];
  }

  /** The concatenation over five sections, written out. */
  lemma ConcatMapFive(ks: seq<Section>, f: Section -> string)
    requires |ks| == 5
    ensures ConcatMap(ks, f) == f(ks[0]) + f(ks[1]) + f(ks[2]) + f(ks[3]) + f(ks[4])
  {
    ConcatMapPrefix(ks, f, 1);
    ConcatMapPrefix(ks, f, 2);
    ConcatMapPrefix(ks, f, 3);
    ConcatMapPrefix(ks, f, 4);
    ConcatMapPrefix(ks, f, 5);
    assert ks[..5] == ks;
    assert ConcatMap(ks[..0], f) == [];
  }

  /** The appended text, section by section, as the five tests of `format_crew_results` build it. */
  lemma MissingSectionsUnrolled(t: string, state: string)
    ensures MissingSections(t, state)
      == SectionIfMissing(t, DetailedReasons, state)
       + SectionIfMissing(t, OutOfState, state)
       + SectionIfMissing(t, Negotiation, state)
       + SectionIfMissing(t, Inspection, state)
       + SectionIfMissing(t, FinalRecommendations, state)
  {
    ConcatMapFive(AllSections, MissingText(t, state));
  }

  // ---------------------------------------------------------------------
  // The report

  /** What the analysis step handed back: Python's truthiness of `result`, and `str(result)`. */
  datatype CrewOutput = Falsy | Truthy(text: string)

  const NoResultsLine := "No results generated from the crew analysis.\n"

  /** The header block: title, date and the customer profile. */
  function Header(date: string, state: string, carType: string, budget: string, p: Profile): string {
    "Comprehensive Car Buying Report\nCurrent Date: " + date
    + "\n\nCustomer Profile\nState: " + state
    + "\nVehicle Type: " + carType
    + "\nColor: " + p.color
    + "\nMileage: " + p.mileage
    + "\nBudget: " + budget
    + "\nMust-Have Features: " + p.mustHave
    + "\nNice-to-Have Features: " + p.niceToHave
    + "\nMethod of Payment: " + p.payment
    + "\nIntended Use: " + p.intendedUse
    + "\nDesired Purchase Date: " + p.purchaseDate
    + "\nSpecial Consideration: " + p.special
    + "\n\n"
  }

  /** The table block when the transcript says both "Top" and "Recommended", nothing otherwise. */
  function TableBlock(transcript: string): string {
    if Contains(transcript, "Top") && Contains(transcript, "Recommended") then VehicleTable(transcript) else ""
  }

  /** What follows the header: the no-results line, or the table, the transcript and the missing sections. */
  function Body(result: CrewOutput, state: string): string {
    match result
    case Falsy => NoResultsLine
    case Truthy(t) => TableBlock(t) + t + MissingSections(t, state)
  }

  /** The report `format_crew_results` returns. */
  function Report(result: CrewOutput, requirements: string, carType: string, budget: string,
                  state: string, date: string): string
  {
    Header(date, state, carType, budget, ProfileOf(requirements)) + Body(result, state)
  }

  /**
   * `format_crew_results`: the header with the extracted profile, then
   * either the no-results line or the optional vehicle table, the
   * transcript and the missing sections.
   */
  method FormatCrewResults(result: CrewOutput, requirements: string, carType: string,
                           budget: string, state: string, date: string)
    returns (report: string)
    ensures report == Report(result, requirements, carType, budget, state, date)
  {
    var profile := ExtractProfile(requirements);
    report := Header(date, state, carType, budget, profile);
    match result {
      case Truthy(t) =>
        report := AppendTranscript(report, t, state);
      case Falsy =>
        report := report + NoResultsLine;
    }
  }

  /** The part of `format_crew_results` after the header when the crew returned a transcript. */
  method AppendTranscript(head: string, t: string, state: string) returns (report: string)
    ensures report == head + Body(Truthy(t), state)
  {
    report := head;
    if Contains(t, "Top") && Contains(t, "Recommended") {
      var table := RenderVehicleTable(t);
      report := report + table;
    }
    assert report == head + TableBlock(t);
    report := report + t;
    report := AppendSections(report, t, state);
    AppendAssoc(head + TableBlock(t), t, MissingSections(t, state));
    AppendAssoc(head, TableBlock(t), t + MissingSections(t, state));
    AppendAssoc(TableBlock(t), t, MissingSections(t, state));
  }

  /** The five conditional appends of `format_crew_results`, in their order. */
  method AppendSections(pre: string, t: string, state: string) returns (report: string)
    ensures report == pre + MissingSections(t, state)
  {
    report := AppendIfMissing(pre, t, DetailedReasons, state);
    ghost var s1 := report;
    report := AppendIfMissing(report, t, OutOfState, state);
    ghost var s2 := report;
    report := AppendIfMissing(report, t, Negotiation, state);
    ghost var s3 := report;
    report := AppendIfMissing(report, t, Inspection, state);
    ghost var s4 := report;
    report := AppendIfMissing(report, t, FinalRecommendations, state);
    SectionsAssembled(pre, s1, s2, s3, s4, report, t, state);
  }

  method AppendIfMissing(report: string, t: string, k: Section, state: string) returns (r: string)
    ensures r == report + SectionIfMissing(t, k, state)
  {
    if !Contains(t, Marker(k)) {
      r := report + Boilerplate(k, state);
    } else {
      r := report;
      assert r == report + "";
    }
  }

  /** The five conditional appends of `format_crew_results` add exactly `MissingSections`. */
  lemma SectionsAssembled(pre: string, s1: string, s2: string, s3: string, s4: string, s5: string,
                          t: string, state: string)
    requires s1 == pre + SectionIfMissing(t, DetailedReasons, state)
    requires s2 == s1 + SectionIfMissing(t, OutOfState, state)
    requires s3 == s2 + SectionIfMissing(t, Negotiation, state)
    requires s4 == s3 + SectionIfMissing(t, Inspection, state)
    requires s5 == s4 + SectionIfMissing(t, FinalRecommendations, state)
    ensures s5 == pre + MissingSections(t, state)
  {
    var a, b, c, d, e := SectionIfMissing(t, DetailedReasons, state),
      SectionIfMissing(t, OutOfState, state), SectionIfMissing(t, Negotiation, state),
      SectionIfMissing(t, Inspection, state), SectionIfMissing(t, FinalRecommendations, state);
    AppendAssoc(pre, a, b);
    AppendAssoc(pre, a + b, c);
    AppendAssoc(pre, a + b + c, d);
    AppendAssoc(pre, a + b + c + d, e);
    MissingSectionsUnrolled(t, state);
  }

  /** A transcript is copied verbatim into the report, after the header. */
  lemma ReportKeepsTranscript(t: string, requirements: string, carType: string, budget: string,
                              state: string, date: string)
    ensures var r := Report(Truthy(t), requirements, carType, budget, state, date);
      && StartsWith(r, Header(date, state, carType, budget, ProfileOf(requirements)))
      && Contains(r, t)
  {
    var h := Header(date, state, carType, budget, ProfileOf(requirements));
    var b := Body(Truthy(t), state);
    StartsWithAppend(h, b);
    BodyKeepsTranscript(h, t, state);
  }

  lemma BodyKeepsTranscript(h: string, t: string, state: string)
    ensures Contains(h + Body(Truthy(t), state), t)
  {
    ContainsMiddle(h, TableBlock(t), t, MissingSections(t, state));
  }

  lemma ContainsMiddle(h: string, a: string, t: string, b: string)
    ensures Contains(h + (a + t + b), t)
  {
    assert h + (a + t + b) == (h + a) + t + b;
    ContainsSelf(t);
    ContainsInConcat(h + a, t, b, t);
  }

  /** With no result, the header is followed by the no-results line and nothing else. */
  lemma EmptyResultReport(requirements: string, carType: string, budget: string,
                          state: string, date: string)
    ensures Report(Falsy, requirements, carType, budget, state, date)
      == Header(date, state, carType, budget, ProfileOf(requirements)) + NoResultsLine
  {
  }

  lemma SectionAppendedHasMarker(t: string, k: Section, state: string)
    requires !Contains(t, Marker(k))
    ensures Contains(SectionIfMissing(t, k, state), Marker(k))
  {
  }

  /** A section whose marker the transcript lacks is appended, so its marker appears. */
  lemma MissingSectionsCover(t: string, state: string, k: Section)
    requires !Contains(t, Marker(k))
    ensures Contains(MissingSections(t, state), Marker(k))
  {
    MissingTextHasMarker(t, state, k);
    AllSectionsComplete(k);
    ConcatMapCovers(AllSections, MissingText(t, state), k, Marker(k));
  }

  lemma MissingTextHasMarker(t: string, state: string, k: Section)
    requires !Contains(t, Marker(k))
    ensures Contains(MissingText(t, state)(k), Marker(k))
  {
    SectionAppendedHasMarker(t, k, state);
    assert MissingText(t, state)(k) == SectionIfMissing(t, k, state);
  }

  lemma AllSectionsComplete(k: Section)
    ensures k in AllSections
  {
    match k
    case DetailedReasons => assert AllSections[0] == k;
    case OutOfState => assert AllSections[1] == k;
    case Negotiation => assert AllSections[2] == k;
    case Inspection => assert AllSections[3] == k;
    case FinalRecommendations => assert AllSections[4] == k;
  }

  /** Every marker phrase appears after any header once the body of a transcript is added. */
  lemma BodyHasEverySection(h: string, t: string, state: string, k: Section)
    ensures Contains(h + Body(Truthy(t), state), Marker(k))
  {
    var m := Marker(k);
    if Contains(t, m) {
      BodyKeepsTranscript(h, t, state);
      ContainsTransitive(h + Body(Truthy(t), state), t, m);
    } else {
      BodyAppendsSection(h, t, state, k);
    }
  }

  lemma BodyAppendsSection(h: string, t: string, state: string, k: Section)
    requires !Contains(t, Marker(k))
    ensures Contains(h + Body(Truthy(t), state), Marker(k))
  {
    MissingSectionsCover(t, state, k);
    ContainsAtEnd(h, TableBlock(t), t, MissingSections(t, state), Marker(k));
  }

  lemma ContainsAtEnd(h: string, a: string, t: string, b: string, m: string)
    requires Contains(b, m)
    ensures Contains(h + (a + t + b), m)
  {
    ContainsRight(h + a + t, b, m);
    assert h + a + t + b == h + (a + t + b);
  }

  /** Every marker phrase appears in the report of a transcript, given or appended. */
  lemma ReportHasEverySection(t: string, requirements: string, carType: string, budget: string,
                              state: string, date: string, k: Section)
    ensures Contains(Report(Truthy(t), requirements, carType, budget, state, date), Marker(k))
  {
    BodyHasEverySection(Header(date, state, carType, budget, ProfileOf(requirements)), t, state, k);
  }

  /**
   * Formatting a report a second time appends no section: every marker is
   * already present. (The header and the transcript would still repeat.)
   */
  lemma ReformatAppendsNoSections(t: string, requirements: string, carType: string, budget: string,
                                  state: string, date: string, state2: string)
    ensures MissingSections(Report(Truthy(t), requirements, carType, budget, state, date), state2) == ""
  {
    var r := Report(Truthy(t), requirements, carType, budget, state, date);
    forall k ensures Contains(r, Marker(k)) {
      ReportHasEverySection(t, requirements, carType, budget, state, date, k);
    }
    NothingMissing(r, state2);
  }

  /** A text holding every marker gets no section appended. */
  lemma NothingMissing(r: string, state: string)
    requires forall k :: Contains(r, Marker(k))
    ensures MissingSections(r, state) == ""
  {
    ConcatMapEmpty(AllSections, MissingText(r, state));
  }
}
