/**
 * The essentials page of the web client: reading the stored JSON columns
 * back, the destination rules suggested from the trip's destination, the
 * blank form, the one-field form update and the packing-list entry.
 */
module EssentialsForm {
  import opened Wrappers
  import opened Json
  import opened Strings
  import Essentials

  /** `parseArrayJson`: the parsed array, or `fallback` when the text is not JSON or not an array. */
  function ParseArrayJson(value: Cell, parse: string -> Option<Json>, fallback: seq<Json>): (r: seq<Json>)
    ensures var p := ParseColumn(value, parse);
      && (p.Some? && p.value.JArr? ==> r == p.value.elems)
      && (!(p.Some? && p.value.JArr?) ==> r == fallback)
  {
    var parsed := ParseColumn(value, parse);
    if parsed.Some? && parsed.value.JArr? then parsed.value.elems else fallback
  }

  /**
   * `parseObjectJson`: the parsed value when it is truthy, of type 'object'
   * and not an array, that is a plain object; `fallback` otherwise.
   */
  function ParseObjectJson(value: Cell, parse: string -> Option<Json>, fallback: map<string, Json>)
    : (r: map<string, Json>)
    ensures var p := ParseColumn(value, parse);
      && (p.Some? && p.value.JObj? ==> r == p.value.fields)
      && (!(p.Some? && p.value.JObj?) ==> r == fallback)
  {
    var parsed := ParseColumn(value, parse);
    if parsed.Some? && Truthy(parsed.value) && IsObjectType(parsed.value) && !parsed.value.JArr?
    then parsed.value.fields
    else fallback
  }

  /** A row the server keeps well formed reads back as stored: no list or section column falls back. */
  lemma StoredColumnsReadBack(row: map<string, Cell>, k: string, parse: string -> Option<Json>,
                              fallbackList: seq<Json>, fallbackSection: map<string, Json>)
    requires Essentials.RowWellFormed(row) && k in row
    ensures k in Essentials.ListColumns ==> ParseArrayJson(row[k], parse, fallbackList) == row[k].doc.elems
    ensures k in Essentials.SectionColumns ==> ParseObjectJson(row[k], parse, fallbackSection) == row[k].doc.fields
  {
    assert Essentials.WellFormedCell(k, row[k]);
  }

  /** `String(destination || '').trim()`. */
  function Destination(destination: Option<Json>): string {
    Trim(if TruthyOpt(destination) then ToJsString(destination.value) else "")
  }

  const FranceRules: string :=
    "France basics\n- Carry photo ID or passport copy.\n- Expect timed entry and bag checks at major sites.\n"
    + "- Watch transport strike notices."
  const ItalyRules: string :=
    "Italy basics\n- Modest dress may be required for churches.\n"
    + "- Check if service charge is already included before tipping.\n"
    + "- Validate tickets where required before boarding."
  const MexicoRules: string :=
    "Mexico basics\n- Keep passport details handy for check-in and excursions.\n"
    + "- Use registered taxis or app rides when possible.\n- Check beach, weather, and water advisories."
  /** What follows the destination's own name before its rules. */
  const Basics: string := " basics\n"
  /** What follows the destination's own name for the listed US states. */
  const UsStateTail: string :=
    Basics + "- Check venue and local event rules before arrival.\n"
    + "- Review weather and safety alerts for the trip dates.\n"
    + "- Carry ID for hotels, rentals, nightlife, and restricted venues."
  /** What follows the destination's own name everywhere else. */
  const GeneralTail: string :=
    Basics + "- Check passport, visa, and entry requirements before departure.\n"
    + "- Review local transport, safety, and customs guidance.\n"
    + "- Confirm restaurant, attraction, and hotel reservation rules."

  /** The state names the suggestion recognises, as whole words in any case. */
  const UsStates: set<string> := {"texas", "florida", "california", "new york", "nevada"}

  /** A character `\w` matches, which decides where `\b` sits. */
  predicate IsWordChar(c: char) {
    ('a' <= c <= 'z') || ('A' <= c <= 'Z') || ('0' <= c <= '9') || c == '_'
  }

  /** `w` occurs in `s` at `i` with a word boundary on both sides. */
  predicate WordAt(s: string, i: int, w: string) {
    && 0 <= i && i + |w| <= |s| && s[i..i + |w|] == w
    && (i == 0 || !IsWordChar(s[i - 1]))
    && (i + |w| == |s| || !IsWordChar(s[i + |w|]))
  }

  /** `/\b(texas|florida|california|new york|nevada)\b/i.test(value)`. */
  predicate MentionsUsState(value: string) {
    exists w, i | w in UsStates && 0 <= i <= |value| :: WordAt(ToLower(value), i, w)
  }

  /**
   * `inferDestinationRules`: nothing for a blank destination; fixed rules
   * for France, then Italy, then Mexico (case-insensitive substring);
   * otherwise the destination's name followed by the rules for the listed
   * US states or the general rules.
   */
  function InferDestinationRules(destination: Option<Json>): (rules: string)
    ensures var value := Destination(destination);
      var lower := ToLower(value);
      && (value == "" ==> rules == "")
      && (value != "" && Contains(lower, "france") ==> rules == FranceRules)
      && (value != "" && !Contains(lower, "france") && Contains(lower, "italy") ==> rules == ItalyRules)
      && (value != "" && !Contains(lower, "france") && !Contains(lower, "italy") && Contains(lower, "mexico") ==>
            rules == MexicoRules)
      && (value != "" && !Contains(lower, "france") && !Contains(lower, "italy") && !Contains(lower, "mexico") ==>
            && StartsWith(rules, value + Basics)
            && (MentionsUsState(value) ==> rules == value + UsStateTail)
            && (!MentionsUsState(value) ==> rules == value + GeneralTail))
  {
    var value := Destination(destination);
    var lower := ToLower(value);
    if value == "" then ""
    else if Contains(lower, "france") then FranceRules
    else if Contains(lower, "italy") then ItalyRules
    else if Contains(lower, "mexico") then MexicoRules
    else
      assert (value + UsStateTail)[..|value + Basics|] == value + Basics;
      assert (value + GeneralTail)[..|value + Basics|] == value + Basics;
      if MentionsUsState(value) then value + UsStateTail else value + GeneralTail
  }

  /** A destination that is not blank always gets a suggestion. */
  lemma SuggestionIffDestination(destination: Option<Json>)
    ensures InferDestinationRules(destination) == "" <==> Destination(destination) == ""
  {
    assert |FranceRules| > 0 && |ItalyRules| > 0 && |MexicoRules| > 0;
  }

  /** White space before the destination changes nothing about the suggestion. */
  lemma LeadingSpaceIgnored(s: string)
    ensures InferDestinationRules(Some(JStr(" " + s))) == InferDestinationRules(Some(JStr(s)))
  {
    assert (" " + s)[1..] == s;
    assert TrimStart(" " + s) == TrimStart(s);
    assert Trim(" " + s) == Trim(s);
  }

  /** The seven sections of the form, by the form's own keys. */
  datatype Section =
    | TravelDetails | DocumentsInfo | SafetyHealth | LocalInfo | PlanningInfo | PersonalInfo | GroupFeatures

  /** The form: a map from section to field to value. */
  type Form = map<Section, map<string, Json>>

  /** The free-text fields of each section. */
  function TextKeys(section: Section): set<string> {
    match section
    case TravelDetails =>
      {"flights", "flightStatusTracker", "checkInReminders", "hotelStay", "rentalCarDetails", "reservations"}
    case DocumentsInfo =>
      {"travelDocuments", "visaInformation", "travelInsurance", "passportInformation", "boardingPasses",
       "confirmationNumbers"}
    case SafetyHealth =>
      {"localEmergencyNumbers", "embassyConsulateInfo", "nearbyHospitals", "pharmacies", "medicationReminders",
       "destinationRules"}
    case LocalInfo =>
      {"currencyExchangeRate", "weatherForecast", "transportationInfo", "languageBasics", "tippingGuidelines"}
    case PlanningInfo => {"budgetTracker", "expenseTracker", "offlineAccess"}
    case PersonalInfo =>
      {"dietaryRestrictions", "accessibilityNeeds", "frequentFlyerNumbers", "hotelLoyaltyNumbers"}
    case GroupFeatures => {"sharedGroupChat", "sharedExpenseSplit", "taskAssignments"}
  }

  /** The list fields of each section. */
  function ListKeys(section: Section): set<string> {
    match section
    case DocumentsInfo => {"keyLinks"}
    case SafetyHealth => {"emergencyContacts"}
    case PlanningInfo => {"packingList"}
    case _ => {}
  }

  /** Every section is present with exactly its text and list fields. */
  predicate HasFormShape(f: Form) {
    forall s: Section :: s in f && f[s].Keys == TextKeys(s) + ListKeys(s)
  }

  /** The blank value of one field; the destination rules start as the suggestion. */
  function BlankField(section: Section, key: string, destinationRules: string): Json {
    if key in ListKeys(section) then EmptyArray
    else if section == SafetyHealth && key == "destinationRules" then JStr(destinationRules)
    else JStr("")
  }

  /** One section of the blank form. */
  function BlankSection(section: Section, destinationRules: string): (fields: map<string, Json>)
    ensures fields.Keys == TextKeys(section) + ListKeys(section)
    ensures forall k :: k in fields ==> fields[k] == BlankField(section, k, destinationRules)
  {
    map k | k in TextKeys(section) + ListKeys(section) :: BlankField(section, k, destinationRules)
  }

  /**
   * `emptyForm(destinationRules)`: every list field [] and every other
   * field '', except the destination rules, which hold the argument.
   */
  function EmptyForm(destinationRules: string): (f: Form)
    ensures HasFormShape(f)
    ensures forall s, k :: s in f && k in f[s] ==> (f[s][k] == EmptyArray <==> k in ListKeys(s))
    ensures forall s, k :: s in f && k in f[s] && k !in ListKeys(s) && !(s == SafetyHealth && k == "destinationRules")
              ==> f[s][k] == JStr("")
  {
    map s: Section | true :: BlankSection(s, destinationRules)
  }

  /** The blank form's destination rules are the argument (the suggestion, or '' without one). */
  lemma EmptyFormHoldsRules(destinationRules: string)
    ensures SafetyHealth in EmptyForm(destinationRules)
    ensures "destinationRules" in EmptyForm(destinationRules)[SafetyHealth]
    ensures EmptyForm(destinationRules)[SafetyHealth]["destinationRules"] == JStr(destinationRules)
  {
    assert "destinationRules" in TextKeys(SafetyHealth);
  }

  /**
   * `update(section, key, value)`: the form with `form[section][key]` set;
   * a missing section starts empty.
   */
  function Update(form: Form, section: Section, key: string, v: Json): Form {
    form[section := (if section in form then form[section] else map[])[key := v]]
  }

  /** An update sets `form[section][key]` and changes no other field of any section. */
  lemma UpdateChangesOneField(form: Form, section: Section, key: string, v: Json)
    ensures var r := Update(form, section, key, v);
      && r.Keys == form.Keys + {section}
      && section in r && r[section].Keys == (if section in form then form[section].Keys else {}) + {key}
      && r[section][key] == v
      && (forall s :: s in form && s != section ==> r[s] == form[s])
      && (forall k :: section in form && k in form[section] && k != key ==> r[section][k] == form[section][k])
  {
  }

  /** Setting a field twice keeps the later value. */
  lemma UpdateLastWins(form: Form, section: Section, key: string, a: Json, b: Json)
    ensures Update(Update(form, section, key, a), section, key, b) == Update(form, section, key, b)
  {
    var l := Update(Update(form, section, key, a), section, key, b);
    var r := Update(form, section, key, b);
    assert l[section] == r[section];
  }

  /** Updates of two different fields can be made in either order. */
  lemma UpdatesCommute(form: Form, s1: Section, k1: string, a: Json, s2: Section, k2: string, b: Json)
    requires s1 != s2 || k1 != k2
    ensures Update(Update(form, s1, k1, a), s2, k2, b) == Update(Update(form, s2, k2, b), s1, k1, a)
  {
    if s1 == s2 {
      SameSectionUpdates(form, s1, k1, a, k2, b);
      SameSectionUpdates(form, s1, k2, b, k1, a);
    } else {
      OtherSectionUpdates(form, s1, k1, a, s2, k2, b);
    }
  }

  /** Updates in two different sections can be made in either order. */
  lemma OtherSectionUpdates(form: Form, s1: Section, k1: string, a: Json, s2: Section, k2: string, b: Json)
    requires s1 != s2
    ensures Update(Update(form, s1, k1, a), s2, k2, b) == Update(Update(form, s2, k2, b), s1, k1, a)
  {
    var l := Update(Update(form, s1, k1, a), s2, k2, b);
    var r := Update(Update(form, s2, k2, b), s1, k1, a);
    assert l.Keys == r.Keys;
    forall s | s in l
      ensures l[s] == r[s]
    {
    }
  }

  /** Two updates in one section set both fields of that section, the later one winning on a shared key. */
  lemma SameSectionUpdates(form: Form, section: Section, k1: string, a: Json, k2: string, b: Json)
    ensures var base := if section in form then form[section] else map[];
      Update(Update(form, section, k1, a), section, k2, b) == form[section := base[k1 := a][k2 := b]]
    ensures k1 != k2 ==> var base := if section in form then form[section] else map[];
      base[k1 := a][k2 := b] == base[k2 := b][k1 := a]
  {
    var base := if section in form then form[section] else map[];
    var l := Update(Update(form, section, k1, a), section, k2, b);
    var r := form[section := base[k1 := a][k2 := b]];
    assert Update(form, section, k1, a)[section] == base[k1 := a];
    assert l.Keys == r.Keys;
    forall s | s in l
      ensures l[s] == r[s]
    {
    }
    if k1 != k2 {
      var x := base[k1 := a][k2 := b];
      var y := base[k2 := b][k1 := a];
      assert x.Keys == y.Keys;
      forall k | k in x
        ensures x[k] == y[k]
      {
      }
    }
  }

  /** Updating a field the form has keeps the form's shape. */
  lemma UpdateKeepsShape(form: Form, section: Section, key: string, v: Json)
    requires HasFormShape(form) && key in TextKeys(section) + ListKeys(section)
    ensures HasFormShape(Update(form, section, key, v))
  {
    var r := Update(form, section, key, v);
    assert r[section] == form[section][key := v];
  }

  /** `String(value || '').trim()`: the text a packing entry is added as. */
  function PackingEntry(value: Option<Json>): string {
    Trim(if TruthyOpt(value) then ToJsString(value.value) else "")
  }

  /** `item.trim().toLowerCase()`: what two packing items are compared by. */
  function PackingKey(item: string): string {
    ToLower(Trim(item))
  }

  /** The list has an item equal to `t` once both are trimmed and lower-cased. */
  predicate ListsItem(list: seq<string>, t: string) {
    exists i :: 0 <= i < |list| && PackingKey(list[i]) == ToLower(t)
  }

  /**
   * The packing list after `addPacking(value)`: unchanged for blank input or
   * an item already listed in any case; otherwise the trimmed input appended.
   */
  function AddedPacking(list: seq<string>, value: Option<Json>): (r: seq<string>)
    ensures PackingEntry(value) == "" ==> r == list
    ensures ListsItem(list, PackingEntry(value)) ==> r == list
    ensures PackingEntry(value) != "" && !ListsItem(list, PackingEntry(value)) ==> r == list + [PackingEntry(value)]
  {
    var t := PackingEntry(value);
    if t == "" || ListsItem(list, t) then list else list + [t]
  }

  /** No two items of the list are the same once trimmed and lower-cased. */
  predicate NoCaseDuplicates(list: seq<string>) {
    forall i, j :: 0 <= i < j < |list| ==> PackingKey(list[i]) != PackingKey(list[j])
  }

  /** Adding a packing item never creates a case-insensitive duplicate, and never adds blank text. */
  lemma AddedPackingKeepsDistinct(list: seq<string>, value: Option<Json>)
    requires NoCaseDuplicates(list)
    ensures NoCaseDuplicates(AddedPacking(list, value))
    ensures forall i :: |list| <= i < |AddedPacking(list, value)| ==>
              AddedPacking(list, value)[i] != "" && Trim(AddedPacking(list, value)[i]) == AddedPacking(list, value)[i]
  {
    var t := PackingEntry(value);
    var r := AddedPacking(list, value);
    if r != list {
      TrimIdempotent(if TruthyOpt(value) then ToJsString(value.value) else "");
      assert PackingKey(t) == ToLower(t);
      forall i, j | 0 <= i < j < |r|
        ensures PackingKey(r[i]) != PackingKey(r[j])
      {
        if j == |list| {
          assert !(0 <= i < |list| && PackingKey(list[i]) == ToLower(t));
        }
      }
    }
  }

  /** The packing list of a form, which the page requires to be a list of strings. */
  predicate HasPackingList(form: Form) {
    && PlanningInfo in form && "packingList" in form[PlanningInfo]
    && var v := form[PlanningInfo]["packingList"];
      v.JArr? && forall i :: 0 <= i < |v.elems| ==> v.elems[i].JStr?
  }

  /** The items of a form's packing list as text. */
  function PackingItems(form: Form): (items: seq<string>)
    requires HasPackingList(form)
    ensures |items| == |form[PlanningInfo]["packingList"].elems|
  {
    var es := form[PlanningInfo]["packingList"].elems;
    seq(|es|, i requires 0 <= i < |es| => es[i].s)
  }

  /**
   * `addPacking(value)` on the form: the form unchanged, or the form with
   * the packing list replaced, through `update`, by the list with the entry
   * appended.
   */
  function AddPacking(form: Form, value: Option<Json>): (r: Form)
    requires HasPackingList(form)
    ensures HasPackingList(r) && PackingItems(r) == AddedPacking(PackingItems(form), value)
    ensures r == form || exists v :: r == Update(form, PlanningInfo, "packingList", v)
  {
    var items := PackingItems(form);
    var t := PackingEntry(value);
    if t == "" || ListsItem(items, t) then form
    else
      var list := form[PlanningInfo]["packingList"];
      var r := Update(form, PlanningInfo, "packingList", JArr(list.elems + [JStr(t)]));
      assert PackingItems(r) == items + [t];
      r
  }
}
