/**
 * The server's fallback column detection (`heuristic_column_detection`):
 * for the name and then the phone column, an exact match of a normalised
 * header against a pattern, patterns tried in priority order; failing that,
 * the first header that contains any pattern. An empty key means "not found".
 */
module ColumnDetection {
  import opened Text
  import opened Wrappers
  import opened Seqs

  const NamePatterns: seq<string> := ["aluno", "nome aluno", "nome_aluno", "name", "nome", "full_name",
    "full name", "customer_name", "customer name", "contact_name", "contact name"]

  const PhonePatterns: seq<string> := ["phone", "telefone", "mobile", "cell", "whatsapp", "phone_number",
    "phone number", "celular"]

  /** `header.lower().replace("_", " ")`. */
  function Simple(header: string): string {
    ReplaceChar(Lower(header), '_', ' ')
  }

  /** Does `header` match `pattern` exactly after normalising? */
  predicate ExactHit(header: string, pattern: string) { Simple(header) == pattern }

  /** Does `header`, lower-cased, contain any of the patterns? */
  predicate ContainsAny(header: string, patterns: seq<string>) {
    exists p :: p in patterns && Contains(Lower(header), p)
  }

  /**
   * The exact search: the first pattern, in priority order, that some
   * header matches; the first such header. A match on an empty header counts
   * as "not found" (the key stays falsy) and the search goes on.
   */
  function ExactMatch(patterns: seq<string>, headers: seq<string>): string
    decreases |patterns|
  {
    if patterns == [] then ""
    else
      match FirstIndex(headers, h => ExactHit(h, patterns[0]))
      case Some(k) => if headers[k] != "" then headers[k] else ExactMatch(patterns[1..], headers)
      case None => ExactMatch(patterns[1..], headers)
  }

  /** The substring search: the first non-empty header containing some pattern. */
  function ContainingMatch(patterns: seq<string>, headers: seq<string>): string {
    match FirstIndex(headers, h => h != "" && ContainsAny(h, patterns))
    case Some(k) => headers[k]
    case None => ""
  }

  /** The key chosen for one column: the exact match if there is one, else the substring match. */
  function Detect(patterns: seq<string>, headers: seq<string>): string {
    var exact := ExactMatch(patterns, headers);
    if exact != "" then exact else ContainingMatch(patterns, headers)
  }

  /** The exact search's nested loops: over patterns, then over headers, with `break`. */
  method FindExact(patterns: seq<string>, headers: seq<string>) returns (key: string)
    ensures key == ExactMatch(patterns, headers)
  {
    key := "";
    var pi := 0;
    while pi < |patterns|
      invariant 0 <= pi <= |patterns|
      invariant key == ""
      invariant ExactMatch(patterns, headers) == ExactMatch(patterns[pi..], headers)
    {
      var pattern := patterns[pi];
      var hi := 0;
      while hi < |headers|
        invariant 0 <= hi <= |headers|
        invariant key == ""
        invariant forall j :: 0 <= j < hi ==> !ExactHit(headers[j], pattern)
      {
        var header := headers[hi];
        var headerLowerSimple := ReplaceChar(Lower(header), '_', ' ');
        if pattern == headerLowerSimple {
          key := header;
          break;
        }
        hi := hi + 1;
      }
      assert patterns[pi..][1..] == patterns[pi + 1..];
      if key != "" {
        break;
      }
      pi := pi + 1;
    }
  }

  /** The substring search's nested loops: over headers, then over patterns, with `break`. */
  method FindContaining(patterns: seq<string>, headers: seq<string>) returns (key: string)
    ensures key == ContainingMatch(patterns, headers)
  {
    key := "";
    var hi := 0;
    while hi < |headers|
      invariant 0 <= hi <= |headers|
      invariant key == ""
      invariant forall j :: 0 <= j < hi ==> !(headers[j] != "" && ContainsAny(headers[j], patterns))
    {
      var header := headers[hi];
      var headerLower := Lower(header);
      var pi := 0;
      while pi < |patterns|
        invariant 0 <= pi <= |patterns|
        invariant key == ""
        invariant forall i :: 0 <= i < pi ==> !Contains(headerLower, patterns[i])
      {
        if Contains(headerLower, patterns[pi]) {
          key := header;
          break;
        }
        pi := pi + 1;
      }
      if key != "" {
        break;
      }
      hi := hi + 1;
    }
  }

  /** `heuristic_column_detection(headers)`: the name key and the number key. */
  method HeuristicColumnDetection(headers: seq<string>) returns (nameKey: string, numberKey: string)
    ensures nameKey == Detect(NamePatterns, headers)
    ensures numberKey == Detect(PhonePatterns, headers)
  {
    nameKey := FindExact(NamePatterns, headers);
    numberKey := FindExact(PhonePatterns, headers);
    if nameKey == "" {
      nameKey := FindContaining(NamePatterns, headers);
    }
    if numberKey == "" {
      numberKey := FindContaining(PhonePatterns, headers);
    }
  }

  /** A detected key is empty or one of the headers. */
  lemma {:induction false} DetectInHeaders(patterns: seq<string>, headers: seq<string>)
    ensures Detect(patterns, headers) == "" || Detect(patterns, headers) in headers
  {
    ExactMatchFound(patterns, headers);
  }

  /**
   * The exact search finds something exactly when some pattern matches a
   * non-empty header; what it finds is the first header matching the
   * earliest such pattern.
   */
  lemma {:induction false} ExactMatchFound(patterns: seq<string>, headers: seq<string>)
    ensures var r := ExactMatch(patterns, headers);
      r != "" <==> exists i, k :: 0 <= i < |patterns| && 0 <= k < |headers| && headers[k] != "" && ExactHit(headers[k], patterns[i])
    ensures var r := ExactMatch(patterns, headers);
      r != "" ==> exists i, k ::
        && 0 <= i < |patterns| && 0 <= k < |headers| && r == headers[k] && ExactHit(r, patterns[i])
        && (forall j :: 0 <= j < k ==> !ExactHit(headers[j], patterns[i]))
        && (forall i', j :: 0 <= i' < i && 0 <= j < |headers| && headers[j] != "" ==> !ExactHit(headers[j], patterns[i']))
    decreases |patterns|
  {
    if patterns != [] {
      ExactMatchFound(patterns[1..], headers);
      var m := FirstIndex(headers, h => ExactHit(h, patterns[0]));
      if m.Some? {
        var k := m.value;
        assert ExactHit(headers[k], patterns[0]);
        if headers[k] == "" {
          // Only the empty header normalises to the empty pattern.
          forall j | 0 <= j < |headers| && headers[j] != "" ensures !ExactHit(headers[j], patterns[0]) {
            assert |Simple(headers[j])| == |headers[j]|;
          }
        }
      }
      ShiftPatterns(patterns, headers);
    }
  }

  /** Re-indexes witnesses between `patterns[1..]` and `patterns`. */
  lemma ShiftPatterns(patterns: seq<string>, headers: seq<string>)
    requires patterns != []
    ensures (exists i, k :: 0 <= i < |patterns| && 0 <= k < |headers| && headers[k] != "" && ExactHit(headers[k], patterns[i]))
      <==> ((exists k :: 0 <= k < |headers| && headers[k] != "" && ExactHit(headers[k], patterns[0]))
            || exists i, k :: 0 <= i < |patterns[1..]| && 0 <= k < |headers| && headers[k] != "" && ExactHit(headers[k], patterns[1..][i]))
  {
    if exists i, k :: 0 <= i < |patterns| && 0 <= k < |headers| && headers[k] != "" && ExactHit(headers[k], patterns[i]) {
      var i, k :| 0 <= i < |patterns| && 0 <= k < |headers| && headers[k] != "" && ExactHit(headers[k], patterns[i]);
      if i > 0 {
        assert patterns[1..][i - 1] == patterns[i];
      }
    }
    if exists i, k :: 0 <= i < |patterns[1..]| && 0 <= k < |headers| && headers[k] != "" && ExactHit(headers[k], patterns[1..][i]) {
      var i, k :| 0 <= i < |patterns[1..]| && 0 <= k < |headers| && headers[k] != "" && ExactHit(headers[k], patterns[1..][i]);
      assert patterns[1..][i] == patterns[i + 1];
    }
  }

  /** An exact match anywhere wins over any substring match. */
  lemma ExactWins(patterns: seq<string>, headers: seq<string>, i: nat, k: nat)
    requires i < |patterns| && k < |headers| && headers[k] != "" && ExactHit(headers[k], patterns[i])
    ensures Detect(patterns, headers) == ExactMatch(patterns, headers) != ""
  {
    ExactMatchFound(patterns, headers);
  }

  /** Without any exact match the key is the first non-empty header containing a pattern, or empty. */
  lemma FallbackIsFirstContaining(patterns: seq<string>, headers: seq<string>)
    requires forall i, k :: 0 <= i < |patterns| && 0 <= k < |headers| && headers[k] != "" ==> !ExactHit(headers[k], patterns[i])
    ensures var r := Detect(patterns, headers);
      (r == "" <==> forall k :: 0 <= k < |headers| ==> headers[k] == "" || !ContainsAny(headers[k], patterns))
      && (r != "" ==> exists k ::
            && 0 <= k < |headers| && r == headers[k] && ContainsAny(r, patterns)
            && forall j :: 0 <= j < k ==> headers[j] == "" || !ContainsAny(headers[j], patterns))
  {
    ExactMatchFound(patterns, headers);
    var m := FirstIndex(headers, h => h != "" && ContainsAny(h, patterns));
    if m.Some? {
      var k := m.value;
      assert headers[k] != "" && ContainsAny(headers[k], patterns);
    }
  }
}
