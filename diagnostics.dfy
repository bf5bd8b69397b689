/**
  The diagnostic registries that `bal explain` searches: two ordered
  enumerations of diagnostic codes (the compiler-internal one first, then the
  older one), each entry pairing a diagnostic identifier with a message key.
  Lookup is a first-match linear search in that fixed priority order.
 */
module Diagnostics {
  import opened Wrappers

  /** One registry entry: the identifier a user types (such as "BCE2000") and its message key. */
  datatype DiagnosticCode = DiagnosticCode(diagnosticId: string, messageKey: string)

  /** A registry's values() in declaration order. */
  type Registry = seq<DiagnosticCode>

  /** Some entry of `registry` has identifier `id`. */
  predicate Defines(registry: Registry, id: string)
  {
    exists i :: 0 <= i < |registry| && registry[i].diagnosticId == id
  }

  /** Index `i` holds the first entry of `registry` whose identifier is `id`. */
  predicate IsFirstMatch(registry: Registry, id: string, i: int)
  {
    && 0 <= i < |registry|
    && registry[i].diagnosticId == id
    && forall j :: 0 <= j < i ==> registry[j].diagnosticId != id
  }

  /** `code` is the entry at the first index of `registry` that matches `id`. */
  ghost predicate FirstOf(registry: Registry, id: string, code: DiagnosticCode)
  {
    exists i :: IsFirstMatch(registry, id, i) && registry[i] == code
  }

  /** The first entry of one registry whose identifier equals `id` exactly, or None. */
  function FirstMatch(registry: Registry, id: string): (r: Option<DiagnosticCode>)
    ensures r.None? <==> !Defines(registry, id)
    ensures r.Some? ==> FirstOf(registry, id, r.value)
  {
    if registry == [] then None
    else if registry[0].diagnosticId == id then
      assert IsFirstMatch(registry, id, 0);
      Some(registry[0])
    else
      var r := FirstMatch(registry[1..], id);
      assert r.Some? ==> FirstOf(registry, id, r.value) by {
        if r.Some? {
          var i :| IsFirstMatch(registry[1..], id, i) && registry[1..][i] == r.value;
          assert IsFirstMatch(registry, id, i + 1);
        }
      }
      r
  }

  /** The two-registry search: the compiler-internal registry has priority over the second one. */
  function Lookup(compilerCodes: Registry, langCodes: Registry, id: string): (r: Option<DiagnosticCode>)
    ensures r.None? <==> !Defines(compilerCodes, id) && !Defines(langCodes, id)
    ensures r.Some? ==> r.value.diagnosticId == id
    ensures Defines(compilerCodes, id) ==> r.Some? && FirstOf(compilerCodes, id, r.value)
    ensures !Defines(compilerCodes, id) && Defines(langCodes, id) ==> r.Some? && FirstOf(langCodes, id, r.value)
  {
    match FirstMatch(compilerCodes, id)
    case Some(code) => Some(code)
    case None => FirstMatch(langCodes, id)
  }

  /** At most one index is the first match, so FirstOf pins the entry down. */
  lemma FirstOfUnique(registry: Registry, id: string, a: DiagnosticCode, b: DiagnosticCode)
    requires FirstOf(registry, id, a) && FirstOf(registry, id, b)
    ensures a == b
  {
  }

  /**
    Searching the compiler registry and then the second registry is the same
    as one first-match search over their concatenation: the priority order is
    exactly that of a merged list with the compiler-internal codes in front.
   */
  lemma {:induction false} LookupIsFirstMatchOfConcatenation(compilerCodes: Registry, langCodes: Registry, id: string)
    ensures Lookup(compilerCodes, langCodes, id) == FirstMatch(compilerCodes + langCodes, id)
  {
    if compilerCodes == [] {
      assert compilerCodes + langCodes == langCodes;
    } else if compilerCodes[0].diagnosticId == id {
    } else {
      assert (compilerCodes + langCodes)[1..] == compilerCodes[1..] + langCodes;
      LookupIsFirstMatchOfConcatenation(compilerCodes[1..], langCodes, id);
    }
  }

  /**
    getDiagnosticError: scan the compiler-internal registry, then the second
    registry, returning the first entry whose identifier equals `errorCode`;
    None (Java's null) when neither defines it.
   */
  method GetDiagnosticError(compilerCodes: Registry, langCodes: Registry, errorCode: string)
    returns (r: Option<DiagnosticCode>)
    ensures r == Lookup(compilerCodes, langCodes, errorCode)
  {
    for i := 0 to |compilerCodes|
      invariant forall j :: 0 <= j < i ==> compilerCodes[j].diagnosticId != errorCode
    {
      if compilerCodes[i].diagnosticId == errorCode {
        assert IsFirstMatch(compilerCodes, errorCode, i);
        FirstOfUnique(compilerCodes, errorCode, compilerCodes[i], Lookup(compilerCodes, langCodes, errorCode).value);
        return Some(compilerCodes[i]);
      }
    }
    for i := 0 to |langCodes|
      invariant forall j :: 0 <= j < i ==> langCodes[j].diagnosticId != errorCode
    {
      if langCodes[i].diagnosticId == errorCode {
        assert IsFirstMatch(langCodes, errorCode, i);
        FirstOfUnique(langCodes, errorCode, langCodes[i], Lookup(compilerCodes, langCodes, errorCode).value);
        return Some(langCodes[i]);
      }
    }
    return None;
  }
}
