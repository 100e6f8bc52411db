/**
 * The rules of the virtual-server creation form: the backend-address pattern
 * written out by hand, the required fields, the numeric minimums, the
 * enumerated choices with their defaults, and the dynamic backend list whose
 * remove control only appears while more than one entry exists.
 */
module ServerForm {
  import opened ServerTypes
  import opened NumberText

  // ---------------------------------------------------------------------
  // The backend address pattern  ^(\d{1,3}\.){3}\d{1,3}:\d{1,5}$
  // ---------------------------------------------------------------------

  /** A run of 1 to maxDigits ASCII digits followed by a separator character. */
  datatype Group = Group(maxDigits: nat, separator: char)

  /** The three dotted octet groups and the group before the colon. */
  const AddressGroups: seq<Group> := [Group(3, '.'), Group(3, '.'), Group(3, '.'), Group(3, ':')]

  /** The port group, last in the address, has 1 to 5 digits. */
  const PortDigits: nat := 5

  /** The number of consecutive digits of s starting at position i. */
  function DigitRun(s: string, i: nat): (n: nat)
    requires i <= |s|
    ensures i + n <= |s|
    ensures forall k :: i <= k < i + n ==> IsDigit(s[k])
    ensures i + n == |s| || !IsDigit(s[i + n])
    decreases |s| - i
  {
    if i < |s| && IsDigit(s[i]) then 1 + DigitRun(s, i + 1) else 0
  }

  /**
   * s[i..] is the given groups each followed by its separator, then
   * 1 to lastMax digits and the end of the string.
   */
  predicate MatchesFrom(s: string, i: nat, groups: seq<Group>, lastMax: nat)
    requires i <= |s|
    decreases |groups|
  {
    var n := DigitRun(s, i);
    if groups == [] then
      1 <= n <= lastMax && i + n == |s|
    else
      1 <= n <= groups[0].maxDigits && i + n < |s| && s[i + n] == groups[0].separator
      && MatchesFrom(s, i + n + 1, groups[1..], lastMax)
  }

  /** The backend field's pattern: four dotted groups of 1-3 digits, a colon, 1-5 digits. */
  predicate IsBackendAddress(s: string)
  {
    MatchesFrom(s, 0, AddressGroups, PortDigits)
  }

  // The reference reading of the pattern: the text is the concatenation of
  // digit strings separated by the groups' separators.

  predicate IsDigitString(g: string, maxDigits: nat)
  {
    1 <= |g| <= maxDigits && AllDigits(g)
  }

  predicate SeparatorsNotDigits(groups: seq<Group>)
  {
    forall k :: 0 <= k < |groups| ==> !IsDigit(groups[k].separator)
  }

  /** The digit strings fit the groups: one per group and one for the final run. */
  predicate FitsGroups(parts: seq<string>, groups: seq<Group>, lastMax: nat)
  {
    && |parts| == |groups| + 1
    && (forall k :: 0 <= k < |groups| ==> IsDigitString(parts[k], groups[k].maxDigits))
    && IsDigitString(parts[|groups|], lastMax)
  }

  /** The text of the parts separated by the groups' separators. */
  function Join(parts: seq<string>, groups: seq<Group>): string
    requires |parts| == |groups| + 1
    decreases |groups|
  {
    if groups == [] then parts[0]
    else parts[0] + [groups[0].separator] + Join(parts[1..], groups[1..])
  }

  lemma {:induction false} DigitRunOfDigits(s: string, i: nat, g: string)
    requires i + |g| <= |s| && s[i..i + |g|] == g && AllDigits(g)
    requires i + |g| == |s| || !IsDigit(s[i + |g|])
    ensures DigitRun(s, i) == |g|
    decreases |g|
  {
    if g != [] {
      assert s[i] == g[0];
      assert s[i + 1..i + 1 + |g[1..]|] == g[1..];
      DigitRunOfDigits(s, i + 1, g[1..]);
    }
  }

  /** Every joined text of fitting parts matches. */
  lemma {:induction false} JoinMatches(s: string, i: nat, parts: seq<string>, groups: seq<Group>, lastMax: nat)
    requires i <= |s| && FitsGroups(parts, groups, lastMax) && SeparatorsNotDigits(groups)
    requires s[i..] == Join(parts, groups)
    ensures MatchesFrom(s, i, groups, lastMax)
    decreases |groups|
  {
    var g := parts[0];
    if groups == [] {
      assert s[i..i + |g|] == g;
      DigitRunOfDigits(s, i, g);
    } else {
      var rest := Join(parts[1..], groups[1..]);
      assert s[i..] == g + [groups[0].separator] + rest;
      assert s[i..i + |g|] == g;
      assert s[i + |g|] == groups[0].separator;
      DigitRunOfDigits(s, i, g);
      assert s[i + |g| + 1..] == rest;
      assert FitsGroups(parts[1..], groups[1..], lastMax) by {
        forall k | 0 <= k < |groups[1..]|
          ensures IsDigitString(parts[1..][k], groups[1..][k].maxDigits)
        {
          assert parts[1..][k] == parts[k + 1] && groups[1..][k] == groups[k + 1];
        }
      }
      JoinMatches(s, i + |g| + 1, parts[1..], groups[1..], lastMax);
    }
  }

  /** The digit strings a matching text is made of. */
  function SplitFrom(s: string, i: nat, groups: seq<Group>, lastMax: nat): (parts: seq<string>)
    requires i <= |s| && MatchesFrom(s, i, groups, lastMax)
    ensures |parts| == |groups| + 1
    decreases |groups|
  {
    var n := DigitRun(s, i);
    if groups == [] then [s[i..i + n]]
    else [s[i..i + n]] + SplitFrom(s, i + n + 1, groups[1..], lastMax)
  }

  /** A digit run of an allowed length is a digit string. */
  lemma RunIsDigitString(s: string, i: nat, maxDigits: nat)
    requires i <= |s| && 1 <= DigitRun(s, i) <= maxDigits
    ensures IsDigitString(s[i..i + DigitRun(s, i)], maxDigits)
  {
    var run := s[i..i + DigitRun(s, i)];
    assert forall k :: 0 <= k < |run| ==> run[k] == s[i + k];
  }

  /** Fitting parts for the later groups, after a fitting first part, fit all the groups. */
  lemma FitsGroupsCons(first: string, rest: seq<string>, groups: seq<Group>, lastMax: nat)
    requires groups != [] && IsDigitString(first, groups[0].maxDigits)
    requires FitsGroups(rest, groups[1..], lastMax)
    ensures FitsGroups([first] + rest, groups, lastMax)
  {
    var parts := [first] + rest;
    forall k | 0 <= k < |groups| ensures IsDigitString(parts[k], groups[k].maxDigits) {
      if k > 0 {
        assert parts[k] == rest[k - 1] && groups[k] == groups[1..][k - 1];
      }
    }
    assert parts[|groups|] == rest[|groups[1..]|];
  }

  /** The split parts are digit strings of the lengths the groups allow. */
  lemma {:induction false} SplitFromFits(s: string, i: nat, groups: seq<Group>, lastMax: nat)
    requires i <= |s| && MatchesFrom(s, i, groups, lastMax)
    ensures FitsGroups(SplitFrom(s, i, groups, lastMax), groups, lastMax)
    decreases |groups|
  {
    var j := i + DigitRun(s, i);
    if groups == [] {
      RunIsDigitString(s, i, lastMax);
    } else {
      RunIsDigitString(s, i, groups[0].maxDigits);
      assert j < |s| && MatchesFrom(s, j + 1, groups[1..], lastMax);
      SplitFromFits(s, j + 1, groups[1..], lastMax);
      FitsGroupsCons(s[i..j], SplitFrom(s, j + 1, groups[1..], lastMax), groups, lastMax);
    }
  }

  /** Joining the split parts gives the text back. */
  lemma {:induction false} SplitFromJoins(s: string, i: nat, groups: seq<Group>, lastMax: nat)
    requires i <= |s| && MatchesFrom(s, i, groups, lastMax)
    ensures Join(SplitFrom(s, i, groups, lastMax), groups) == s[i..]
    decreases |groups|
  {
    var j := i + DigitRun(s, i);
    if groups == [] {
      assert s[i..j] == s[i..];
    } else {
      assert j < |s| && s[j] == groups[0].separator && MatchesFrom(s, j + 1, groups[1..], lastMax);
      var rest := SplitFrom(s, j + 1, groups[1..], lastMax);
      SplitFromJoins(s, j + 1, groups[1..], lastMax);
      assert Join(rest, groups[1..]) == s[j + 1..];
      var parts := [s[i..j]] + rest;
      assert SplitFrom(s, i, groups, lastMax) == parts;
      assert parts[1..] == rest;
      assert Join(parts, groups) == s[i..j] + [s[j]] + Join(rest, groups[1..]);
      SliceAround(s, i, j);
    }
  }

  /** A suffix is the slice up to a position, the element there, and the rest. */
  lemma SliceAround(s: string, i: nat, j: nat)
    requires i <= j < |s|
    ensures s[i..] == s[i..j] + [s[j]] + s[j + 1..]
  {
    assert forall k :: 0 <= k < |s| - i ==> s[i..][k] == s[i + k];
  }

  /**
   * The pattern accepts exactly the texts made of four digit strings of
   * length 1-3 separated by '.', '.', '.', ':' and a digit string of length
   * 1-5, with nothing before or after.
   */
  lemma BackendAddressExactly(s: string)
    ensures IsBackendAddress(s) <==>
      exists parts :: FitsGroups(parts, AddressGroups, PortDigits) && Join(parts, AddressGroups) == s
  {
    if IsBackendAddress(s) {
      var parts := SplitFrom(s, 0, AddressGroups, PortDigits);
      SplitFromFits(s, 0, AddressGroups, PortDigits);
      SplitFromJoins(s, 0, AddressGroups, PortDigits);
      assert s[0..] == s;
    }
    if exists parts :: FitsGroups(parts, AddressGroups, PortDigits) && Join(parts, AddressGroups) == s {
      var parts :| FitsGroups(parts, AddressGroups, PortDigits) && Join(parts, AddressGroups) == s;
      assert s[0..] == s;
      JoinMatches(s, 0, parts, AddressGroups, PortDigits);
    }
  }

  /** The address of four octets and a port, as the pattern wants it written. */
  function AddressText(a: string, b: string, c: string, d: string, port: string): string
  {
    Join([a, b, c, d, port], AddressGroups)
  }

  lemma AddressTextMatches(a: string, b: string, c: string, d: string, port: string)
    requires IsDigitString(a, 3) && IsDigitString(b, 3) && IsDigitString(c, 3) && IsDigitString(d, 3)
    requires IsDigitString(port, 5)
    ensures IsBackendAddress(AddressText(a, b, c, d, port))
  {
    var s := AddressText(a, b, c, d, port);
    assert s[0..] == s;
    JoinMatches(s, 0, [a, b, c, d, port], AddressGroups, PortDigits);
  }

  /** The form's default backend entry fits the pattern. */
  lemma DefaultBackendMatches()
    ensures IsBackendAddress(DefaultBackend)
  {
    AddressTextMatches("10", "0", "0", "1", "80");
  }

  /** 10 to the power k. */
  function Pow10(k: nat): (p: nat)
    ensures p >= 1
  {
    if k == 0 then 1 else 10 * Pow10(k - 1)
  }

  /** A number below 10^k is written with at most k digits. */
  lemma {:induction false} NatTextFits(n: nat, k: nat)
    requires 1 <= k && n < Pow10(k)
    ensures IsDigitString(NatText(n), k)
    decreases n
  {
    if n >= 10 {
      assert k >= 2;
      NatTextFits(n / 10, k - 1);
    }
  }

  /**
   * The pattern checks digit counts only: every octet value below 1000 and
   * every port below 100000 is accepted, although octets stop at 255 and
   * ports at 65535.
   */
  lemma PatternDoesNotRangeCheck(a: nat, b: nat, c: nat, d: nat, port: nat)
    requires a < 1000 && b < 1000 && c < 1000 && d < 1000 && port < 100000
    ensures IsBackendAddress(AddressText(NatText(a), NatText(b), NatText(c), NatText(d), NatText(port)))
  {
    assert Pow10(3) == 1000 && Pow10(5) == 100000;
    NatTextFits(a, 3);
    NatTextFits(b, 3);
    NatTextFits(c, 3);
    NatTextFits(d, 3);
    NatTextFits(port, 5);
    AddressTextMatches(NatText(a), NatText(b), NatText(c), NatText(d), NatText(port));
  }

  /** A matching text starts with a digit run of at most its group's length. */
  lemma StartsWithDigits(s: string, i: nat, groups: seq<Group>, lastMax: nat)
    requires i <= |s| && MatchesFrom(s, i, groups, lastMax)
    ensures i < |s| && IsDigit(s[i])
    ensures DigitRun(s, i) <= if groups == [] then lastMax else groups[0].maxDigits
  {
  }

  /** A matching text ends with its last separator and 1 to lastMax digits. */
  lemma {:induction false} EndsWithLastRun(s: string, i: nat, groups: seq<Group>, lastMax: nat)
    requires i <= |s| && MatchesFrom(s, i, groups, lastMax) && groups != []
    ensures exists p :: i <= p < |s| - 1 && |s| - 1 - p <= lastMax
                        && s[p] == groups[|groups| - 1].separator && AllDigits(s[p + 1..])
    decreases |groups|
  {
    var j := i + DigitRun(s, i) + 1;
    if |groups| == 1 {
      var p := j - 1;
      assert s[p] == groups[0].separator;
      var port := s[p + 1..];
      assert forall k :: 0 <= k < |port| ==> port[k] == s[j + k];
    } else {
      EndsWithLastRun(s, j, groups[1..], lastMax);
      assert groups[1..][|groups[1..]| - 1] == groups[|groups| - 1];
    }
  }

  /**
   * An accepted address starts with an octet of 1-3 digits, so the empty
   * text, a host name, leading padding and a four-digit octet are refused.
   */
  lemma AddressStartsWithOctet(s: string)
    requires IsBackendAddress(s)
    ensures |s| >= 1 && IsDigit(s[0]) && DigitRun(s, 0) <= 3
  {
    StartsWithDigits(s, 0, AddressGroups, PortDigits);
  }

  /**
   * An accepted address ends with ':' and a port of 1-5 digits, so a missing
   * port, a port of six digits and trailing padding are refused.
   */
  lemma AddressEndsWithPort(s: string)
    requires IsBackendAddress(s)
    ensures exists p :: 0 <= p < |s| - 1 && |s| - 1 - p <= PortDigits && s[p] == ':' && AllDigits(s[p + 1..])
  {
    EndsWithLastRun(s, 0, AddressGroups, PortDigits);
  }

  // ---------------------------------------------------------------------
  // Field rules
  // ---------------------------------------------------------------------

  /** Which rules a backend entry carries: the modal adds the pattern to "required". */
  datatype BackendRules = RequiredOnly | RequiredAndPattern

  datatype BackendCheck = Accepted | Missing | Malformed

  /**
   * One backend entry against its rules. An empty or absent entry fails
   * "required" only (the pattern rule ignores empty values); a non-empty entry
   * fails only the pattern, when the pattern applies.
   */
  function CheckBackend(entry: Option<string>, rules: BackendRules): (r: BackendCheck)
    ensures r == Missing <==> entry == None || entry == Some("")
    ensures rules == RequiredAndPattern ==> (r == Accepted <==> entry.Some? && IsBackendAddress(entry.value))
    ensures rules == RequiredOnly ==> r != Malformed
  {
    if entry == None || entry == Some("") then Missing
    else if rules == RequiredAndPattern && !IsBackendAddress(entry.value) then Malformed
    else Accepted
  }

  /** The name field is required: present and not empty. */
  predicate NameAccepted(name: Option<string>)
  {
    name.Some? && name.value != ""
  }

  /** What the form holds before validation: a select always holds one of its options. */
  datatype FormDraft = FormDraft(
    name: Option<string>,
    port: Port,
    mode: Mode,
    balance: Balance,
    backends: seq<Option<string>>,
    maxConn: int,
    maxQueue: int,
    timeoutConnect: int,
    timeoutClient: int,
    timeoutServer: int,
    timeoutQueue: int)

  /** The flat values a successful validation hands to the submit handler. */
  datatype FormValues = FormValues(
    name: string,
    port: Port,
    mode: Mode,
    balance: Balance,
    backends: Option<seq<string>>,
    maxConn: int,
    maxQueue: int,
    timeoutConnect: int,
    timeoutClient: int,
    timeoutServer: int,
    timeoutQueue: int)

  datatype FieldError = NameRequired | BackendRequired(index: nat) | BackendFormat(index: nat)

  datatype Validation = Valid(values: FormValues) | Invalid(errors: seq<FieldError>)

  /** The errors of the backend entries, numbered from the index of the first one. */
  function BackendErrors(entries: seq<Option<string>>, from: nat, rules: BackendRules): (errs: seq<FieldError>)
    ensures NameRequired !in errs
    ensures errs == [] <==> forall k :: 0 <= k < |entries| ==> CheckBackend(entries[k], rules) == Accepted
    ensures forall i: nat :: BackendRequired(i) in errs <==>
      from <= i < from + |entries| && CheckBackend(entries[i - from], rules) == Missing
    ensures forall i: nat :: BackendFormat(i) in errs <==>
      from <= i < from + |entries| && CheckBackend(entries[i - from], rules) == Malformed
    decreases |entries|
  {
    if entries == [] then []
    else
      var rest := BackendErrors(entries[1..], from + 1, rules);
      assert forall k :: 1 <= k < |entries| ==> entries[1..][k - 1] == entries[k];
      match CheckBackend(entries[0], rules)
      case Accepted => rest
      case Missing => [BackendRequired(from)] + rest
      case Malformed => [BackendFormat(from)] + rest
  }

  /** The entries' texts, once every entry holds one. */
  function EntryTexts(entries: seq<Option<string>>): (texts: seq<string>)
    requires forall k :: 0 <= k < |entries| ==> entries[k].Some?
    ensures |texts| == |entries|
    ensures forall k :: 0 <= k < |entries| ==> entries[k] == Some(texts[k])
  {
    seq(|entries|, k requires 0 <= k < |entries| => entries[k].value)
  }

  /**
   * Validation of the whole form: it succeeds exactly when the name and every
   * backend entry pass their rules, and then hands over the held values;
   * otherwise it lists every failing field.
   */
  function ValidateFields(d: FormDraft, rules: BackendRules): (r: Validation)
    ensures r.Valid? <==>
      NameAccepted(d.name) && forall k :: 0 <= k < |d.backends| ==> CheckBackend(d.backends[k], rules) == Accepted
    ensures r.Valid? ==>
      && r.values.name == d.name.value
      && r.values.port == d.port && r.values.mode == d.mode && r.values.balance == d.balance
      && r.values.backends.Some? && |r.values.backends.value| == |d.backends|
      && (forall k :: 0 <= k < |d.backends| ==> d.backends[k] == Some(r.values.backends.value[k]))
      && r.values.maxConn == d.maxConn && r.values.maxQueue == d.maxQueue
      && r.values.timeoutConnect == d.timeoutConnect && r.values.timeoutClient == d.timeoutClient
      && r.values.timeoutServer == d.timeoutServer && r.values.timeoutQueue == d.timeoutQueue
    ensures r.Invalid? ==>
      && (NameRequired in r.errors <==> !NameAccepted(d.name))
      && (forall i: nat :: BackendRequired(i) in r.errors <==>
            i < |d.backends| && CheckBackend(d.backends[i], rules) == Missing)
      && (forall i: nat :: BackendFormat(i) in r.errors <==>
            i < |d.backends| && CheckBackend(d.backends[i], rules) == Malformed)
  {
    var errs := (if NameAccepted(d.name) then [] else [NameRequired]) + BackendErrors(d.backends, 0, rules);
    if errs != [] then Invalid(errs)
    else
      assert forall k :: 0 <= k < |d.backends| ==> d.backends[k].Some? by {
        forall k | 0 <= k < |d.backends| ensures d.backends[k].Some? {
          assert CheckBackend(d.backends[k], rules) == Accepted;
        }
      }
      Valid(FormValues(d.name.value, d.port, d.mode, d.balance, Some(EntryTexts(d.backends)),
                       d.maxConn, d.maxQueue,
                       d.timeoutConnect, d.timeoutClient, d.timeoutServer, d.timeoutQueue))
  }

  // ---------------------------------------------------------------------
  // Choices, minimums and defaults
  // ---------------------------------------------------------------------

  /** The smallest value the limit and timeout number inputs take. */
  const InputMinimum: int := 1

  /** maxConn, maxQueue and the four timeouts are each at least the input minimum. */
  predicate MeetsMinimums(v: FormValues)
  {
    && v.maxConn >= InputMinimum && v.maxQueue >= InputMinimum
    && v.timeoutConnect >= InputMinimum && v.timeoutClient >= InputMinimum
    && v.timeoutServer >= InputMinimum && v.timeoutQueue >= InputMinimum
  }

  /** The options of the three selects, in the order they are offered. */
  const PortOptions: seq<int> := [80, 443]
  const ModeOptions: seq<string> := ["http", "https"]
  const BalanceOptions: seq<string> := ["roundrobin", "cookie"]

  /** Every option of a select denotes a value of its field's type, and every value is offered. */
  lemma SelectOptionsAreTheEnumerations(p: Port, m: Mode, b: Balance)
    ensures forall n :: n in PortOptions <==> PortOf(n).Some?
    ensures forall t :: t in ModeOptions <==> ParseMode(t).Some?
    ensures forall t :: t in BalanceOptions <==> ParseBalance(t).Some?
    ensures PortNumber(p) in PortOptions && ModeText(m) in ModeOptions && BalanceText(b) in BalanceOptions
  {
  }

  /** The pool's initial entry, 10.0.0.1:80. */
  const DefaultBackend: string := AddressText("10", "0", "0", "1", "80")

  /** The form as it opens: no name, the defaults, and one backend entry. */
  const InitialDraft: FormDraft :=
    FormDraft(None, Port80, Http, RoundRobin, [Some(DefaultBackend)], 50, 200, 5, 30, 30, 30)

  /** A form whose backend entries all pass fails on a missing name alone. */
  lemma OnlyTheNameFails(d: FormDraft, rules: BackendRules)
    requires !NameAccepted(d.name)
    requires forall k :: 0 <= k < |d.backends| ==> CheckBackend(d.backends[k], rules) == Accepted
    ensures ValidateFields(d, rules) == Invalid([NameRequired])
  {
    assert BackendErrors(d.backends, 0, rules) == [];
  }

  /** A named form with one accepted backend entry hands over exactly that entry. */
  lemma OneEntryPasses(d: FormDraft, rules: BackendRules, entry: string)
    requires NameAccepted(d.name)
    requires d.backends == [Some(entry)] && CheckBackend(Some(entry), rules) == Accepted
    ensures ValidateFields(d, rules).Valid?
    ensures ValidateFields(d, rules).values.backends == Some([entry])
  {
    var texts := ValidateFields(d, rules).values.backends.value;
    assert |texts| == 1 && d.backends[0] == Some(texts[0]);
    assert texts == [entry];
  }

  /** Opened and submitted untouched, the form fails on the name alone. */
  lemma InitialDraftNeedsAName()
    ensures ValidateFields(InitialDraft, RequiredAndPattern) == Invalid([NameRequired])
  {
    DefaultBackendMatches();
    OnlyTheNameFails(InitialDraft, RequiredAndPattern);
  }

  /** With a name typed in, the untouched form passes, meets every minimum and holds the default entry. */
  lemma NamedInitialDraftPasses(name: string)
    requires name != ""
    ensures var r := ValidateFields(InitialDraft.(name := Some(name)), RequiredAndPattern);
      r.Valid? && MeetsMinimums(r.values) && r.values.backends == Some([DefaultBackend])
  {
    DefaultBackendMatches();
    OneEntryPasses(InitialDraft.(name := Some(name)), RequiredAndPattern, DefaultBackend);
  }

  // ---------------------------------------------------------------------
  // The dynamic backend list
  // ---------------------------------------------------------------------

  /** The remove control of an entry is shown only while the list has more than one entry. */
  predicate RemoveShown(entries: seq<Option<string>>)
  {
    |entries| > 1
  }

  /** "Add backend" appends an empty entry. */
  function AddEntry(entries: seq<Option<string>>): (r: seq<Option<string>>)
    ensures |r| == |entries| + 1 && r[..|entries|] == entries && r[|entries|] == None
  {
    entries + [None]
  }

  /** Removing the entry at index; without a remove control nothing can be removed. */
  function RemoveEntry(entries: seq<Option<string>>, index: nat): (r: seq<Option<string>>)
    requires index < |entries|
    ensures RemoveShown(entries) ==> r == entries[..index] + entries[index + 1..]
    ensures !RemoveShown(entries) ==> r == entries
  {
    if RemoveShown(entries) then entries[..index] + entries[index + 1..] else entries
  }

  /** One click on the backend list. */
  datatype ListEdit = AddClicked | RemoveClicked(index: nat)

  function ApplyEdit(entries: seq<Option<string>>, e: ListEdit): seq<Option<string>>
  {
    match e
    case AddClicked => AddEntry(entries)
    case RemoveClicked(i) => if i < |entries| then RemoveEntry(entries, i) else entries
  }

  function ApplyEdits(entries: seq<Option<string>>, edits: seq<ListEdit>): seq<Option<string>>
    decreases |edits|
  {
    if edits == [] then entries else ApplyEdits(ApplyEdit(entries, edits[0]), edits[1..])
  }

  /** A single removal never empties a non-empty list. */
  lemma RemoveKeepsAnEntry(entries: seq<Option<string>>, index: nat)
    requires index < |entries|
    ensures |RemoveEntry(entries, index)| >= 1
  {
  }

  /** Whatever the clicks, a list that starts with an entry keeps at least one. */
  lemma {:induction false} EditsKeepAnEntry(entries: seq<Option<string>>, edits: seq<ListEdit>)
    requires |entries| >= 1
    ensures |ApplyEdits(entries, edits)| >= 1
    decreases |edits|
  {
    if edits != [] {
      var next := ApplyEdit(entries, edits[0]);
      assert |next| >= 1;
      EditsKeepAnEntry(next, edits[1..]);
    }
  }

  /** The list as the form opens it never becomes empty. */
  lemma InitialPoolNeverEmpties(edits: seq<ListEdit>)
    ensures |ApplyEdits(InitialDraft.backends, edits)| >= 1
  {
    EditsKeepAnEntry(InitialDraft.backends, edits);
  }
}
