/** Which checkpoint manifests a run manages and in what order they are listed
    (server/training_artifacts/catalog.py:416-447, server/training/contracts.py:12-14). */
module ManifestNames {
  import opened Core
  import opened Decimal

  const UPDATE := "update-"
  const JSON := ".json"
  const LATEST := "latest.json"

  // ---------------------------------------------------------------------------------
  // File names, as pathlib of Python 3.14 splits them

  function LastDot(name: string): Option<nat> {
    if name == [] then None
    else if name[|name| - 1] == '.' then Some(|name| - 1)
    else LastDot(name[..|name| - 1])
  }

  predicate OnlyDots(s: string) { forall i :: 0 <= i < |s| ==> s[i] == '.' }

  /** Where the suffix starts: the last dot, if anything but dots precedes it. */
  function SuffixAt(name: string): (i: nat)
    ensures i <= |name|
  {
    var dot := LastDot(name);
    if dot.Some? && dot.value < |name| && !OnlyDots(name[..dot.value]) then dot.value else |name|
  }

  function Suffix(name: string): string { name[SuffixAt(name)..] }

  function Stem(name: string): string { name[..SuffixAt(name)] }

  predicate StartsWith(s: string, prefix: string) { |prefix| <= |s| && s[..|prefix|] == prefix }

  function RemovePrefix(s: string, prefix: string): string {
    if StartsWith(s, prefix) then s[|prefix|..] else s
  }

  // ---------------------------------------------------------------------------------

  function NameOf(n: nat): string { UPDATE + Digits(n) + JSON }

  /** _managed_update_number; `others` are the decimal digits of other scripts, which
      isdecimal and int accept too. */
  function ManagedUpdateNumber(name: string, others: Scripts): Option<nat> {
    if Suffix(name) != JSON then None
    else
      var text := RemovePrefix(Stem(name), UPDATE);
      if text == Stem(name) || text == [] || !AllDigits(text, others) then None
      else
        var n := Value(text, others);
        if n <= 0 || name != NameOf(n) then None else Some(n)
  }

  datatype Kind = Latest | Archive | Invalid

  /** _manifest_kind. */
  function ManifestKind(name: string, others: Scripts): Kind {
    if name == LATEST then Latest
    else if ManagedUpdateNumber(name, others).Some? then Archive
    else Invalid
  }

  /** _manifest_sort_key. */
  function SortKey(name: string, others: Scripts): (int, int, string) {
    if name == LATEST then (0, 0, name)
    else
      var update := ManagedUpdateNumber(name, others);
      if update.Some? then (1, -(update.value as int), name) else (2, 0, name)
  }

  lemma {:induction false} LastDotOf(s: string, t: string)
    requires forall i :: 0 <= i < |t| ==> t[i] != '.'
    ensures LastDot(s + ['.'] + t) == Some(|s|)
  {
    var name := s + ['.'] + t;
    if t != [] {
      LastDotOf(s, t[..|t| - 1]);
      assert name[..|name| - 1] == s + ['.'] + t[..|t| - 1];
    }
  }

  lemma NameSplits(stem: string)
    requires !OnlyDots(stem)
    ensures Suffix(stem + JSON) == JSON && Stem(stem + JSON) == stem
  {
    var name := stem + JSON;
    assert name == stem + ['.'] + "json";
    LastDotOf(stem, "json");
    assert name[..|stem|] == stem;
  }

  /** A name is managed as update n exactly when it is the name update n is saved under. */
  lemma ManagedIffWritten(name: string, others: Scripts, n: nat)
    ensures ManagedUpdateNumber(name, others) == Some(n) <==> n > 0 && name == NameOf(n)
  {
    if n > 0 && name == NameOf(n) {
      var digits := Digits(n);
      var stem := UPDATE + digits;
      assert stem[0] == 'u';
      assert name == stem + JSON;
      NameSplits(stem);
      assert stem[..|UPDATE|] == UPDATE && stem[|UPDATE|..] == digits;
      DigitsAreDigits(n, others);
    }
  }

  // ---------------------------------------------------------------------------------
  // The pattern ^(latest|update-[1-9][0-9]*)\.json$

  predicate Matches(name: string) {
    || name == LATEST
    || (&& |name| > |UPDATE| + |JSON|
        && StartsWith(name, UPDATE)
        && name[|name| - |JSON|..] == JSON
        && Canonical(name[|UPDATE|..|name| - |JSON|]))
  }

  /** The managed names are the language of the pattern a requested name must match. */
  lemma ManagedNamesAreThePattern(name: string, others: Scripts)
    ensures ManifestKind(name, others) != Invalid <==> Matches(name)
  {
    if name != LATEST {
      var managed := ManagedUpdateNumber(name, others);
      if managed.Some? {
        var n := managed.value;
        ManagedIffWritten(name, others, n);
        DigitsAreDigits(n, map[]);
        assert name[|UPDATE|..|name| - |JSON|] == Digits(n);
        assert name[..|UPDATE|] == UPDATE && name[|name| - |JSON|..] == JSON;
      }
      if Matches(name) {
        var digits := name[|UPDATE|..|name| - |JSON|];
        CanonicalIsWritten(digits);
        assert name == UPDATE + digits + JSON;
        ManagedIffWritten(name, others, Value(digits, map[]));
      }
    }
  }

  // ---------------------------------------------------------------------------------
  // The listing

  /** Python's order on strings. */
  predicate TextLess(a: string, b: string) {
    if b == [] then false
    else if a == [] then true
    else a[0] < b[0] || (a[0] == b[0] && TextLess(a[1..], b[1..]))
  }

  predicate KeyAtMost(a: (int, int, string), b: (int, int, string)) {
    a.0 < b.0 || (a.0 == b.0 && (a.1 < b.1 || (a.1 == b.1 && !TextLess(b.2, a.2))))
  }

  predicate Listed(names: seq<string>, others: Scripts) {
    && (forall i, j :: 0 <= i < j < |names| ==> names[i] != names[j])
    && (forall i, j :: 0 <= i < j < |names| ==> KeyAtMost(SortKey(names[i], others), SortKey(names[j], others)))
  }

  /** A directory's names sorted by that key: latest first and at most once, then updates
      by strictly descending number, then everything else by name. */
  lemma ListingOrder(names: seq<string>, others: Scripts, i: nat, j: nat)
    requires Listed(names, others) && i < j < |names|
    ensures var a, b := ManifestKind(names[i], others), ManifestKind(names[j], others);
      && b != Latest
      && (b == Archive ==> a != Invalid)
      && (a == Archive && b == Archive ==>
           ManagedUpdateNumber(names[i], others).value > ManagedUpdateNumber(names[j], others).value)
      && (a == Invalid && b == Invalid ==> !TextLess(names[j], names[i]))
  {
    assert KeyAtMost(SortKey(names[i], others), SortKey(names[j], others));
    hide ManagedUpdateNumber;
    var m, n := ManagedUpdateNumber(names[i], others), ManagedUpdateNumber(names[j], others);
    if m.Some? && n.Some? {
      ManagedIffWritten(names[i], others, m.value);
      ManagedIffWritten(names[j], others, n.value);
    }
  }
}
