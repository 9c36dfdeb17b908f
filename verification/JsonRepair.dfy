/** repairTrailingQuotedJsonObject and parseFinalJsonObject: the narrow repair of a
    JSON object followed by one stray brace, or by a stray quote and brace. */
module JsonRepair {
  import opened Collections
  import opened JsonModel
  import opened Text

  // ----- the trailing wrapper  /}\s*"\s*}$/  -----

  predicate SpaceBetween(s: string, from: nat, to: nat)
    requires to <= |s|
  {
    forall i :: from <= i < to ==> IsSpace(s[i])
  }

  /** The regex matches at k: a brace, white space, a quote, white space, and the last brace. */
  ghost predicate WrapperAt(s: string, k: nat) {
    exists q: nat :: WrapperWithQuote(s, k, q)
  }

  predicate WrapperWithQuote(s: string, k: nat, q: nat) {
    k < q < |s| - 1 && s[k] == '}' && SpaceBetween(s, k + 1, q)
    && s[q] == '"' && SpaceBetween(s, q + 1, |s| - 1) && s[|s| - 1] == '}'
  }

  predicate LastIs(s: string, c: char) {
    s != [] && s[|s| - 1] == c
  }

  /** Where the regex matches, read backwards from the end. */
  function WrapperStart(s: string): Option<nat> {
    if !LastIs(s, '}') then None
    else
      var beforeBrace := TrimEnd(s[..|s| - 1]);
      if !LastIs(beforeBrace, '"') then None
      else
        var beforeQuote := TrimEnd(beforeBrace[..|beforeBrace| - 1]);
        if LastIs(beforeQuote, '}') then Some(|beforeQuote| - 1) else None
  }

  lemma {:induction false} TrimEndAt(s: string, n: nat)
    requires n < |s| && !IsSpace(s[n]) && SpaceBetween(s, n + 1, |s|)
    ensures TrimEnd(s) == s[..n + 1]
    decreases |s|
  {
    if n < |s| - 1 {
      TrimEndAt(s[..|s| - 1], n);
      assert s[..|s| - 1][..n + 1] == s[..n + 1];
    }
  }

  lemma MatchIsFound(s: string, k: nat, q: nat)
    requires WrapperWithQuote(s, k, q)
    ensures WrapperStart(s) == Some(k)
  {
    TrimEndAt(s[..|s| - 1], q);
    assert s[..|s| - 1][..q + 1] == s[..q + 1];
    assert s[..q + 1][..q] == s[..q];
    TrimEndAt(s[..q], k);
  }

  lemma FoundIsMatch(s: string, k: nat)
    requires WrapperStart(s) == Some(k)
    ensures WrapperAt(s, k)
  {
    var q := |TrimEnd(s[..|s| - 1])| - 1;
    assert WrapperWithQuote(s, k, q);
  }

  /** The backward reading finds the match of the regex, and there is only one. */
  lemma WrapperStartIsTheMatch(s: string, k: nat)
    ensures WrapperAt(s, k) <==> WrapperStart(s) == Some(k)
  {
    if WrapperAt(s, k) {
      var q: nat :| WrapperWithQuote(s, k, q);
      MatchIsFound(s, k, q);
    }
    if WrapperStart(s) == Some(k) {
      FoundIsMatch(s, k);
    }
  }

  // ----- the brace and string scanner -----

  datatype Scan = Scan(depth: int, inString: bool, escaped: bool)

  function ScanStep(st: Scan, c: char): Scan {
    if st.escaped then st.(escaped := false)
    else if c == '\\' then st.(escaped := true)
    else if c == '"' then st.(inString := !st.inString)
    else if st.inString then st
    else if c == '{' then st.(depth := st.depth + 1)
    else if c == '}' then st.(depth := st.depth - 1)
    else st
  }

  function ScanText(s: string): Scan {
    if s == [] then Scan(0, false, false) else ScanStep(ScanText(s[..|s| - 1]), s[|s| - 1])
  }

  function Repair(candidate: string): string {
    if WrapperStart(candidate).Some? then candidate[..WrapperStart(candidate).value + 1]
    else if ScanText(candidate).depth == -1 && LastIs(TrimEnd(candidate), '}')
    then TrimEnd(candidate)[..|TrimEnd(candidate)| - 1]
    else candidate
  }

  method RepairTrailingQuotedJsonObject(candidate: string) returns (repaired: string)
    ensures repaired == Repair(candidate)
  {
    var start := WrapperStart(candidate);
    if start.Some? {
      return candidate[..start.value] + "}";
    }
    var depth, inString, escaped := 0, false, false;
    for i := 0 to |candidate|
      invariant ScanText(candidate[..i]) == Scan(depth, inString, escaped)
    {
      assert candidate[..i + 1][..i] == candidate[..i];
      var c := candidate[i];
      if escaped {
        escaped := false;
        continue;
      }
      if c == '\\' {
        escaped := true;
        continue;
      }
      if c == '"' {
        inString := !inString;
        continue;
      }
      if inString { continue; }
      if c == '{' { depth := depth + 1; }
      if c == '}' { depth := depth - 1; }
    }
    assert candidate[..|candidate|] == candidate;
    if depth == -1 && LastIs(TrimEnd(candidate), '}') {
      return TrimEnd(candidate)[..|TrimEnd(candidate)| - 1];
    }
    return candidate;
  }

  /** A stray quote and brace after any text ending in a brace are taken off. */
  lemma RepairUndoesQuoteWrapper(text: string)
    requires LastIs(text, '}')
    ensures Repair(text + "\"}") == text
  {
    var s := text + "\"}";
    assert s[|text|] == '"' && s[|text| - 1] == '}';
    assert WrapperWithQuote(s, |text| - 1, |text|);
    WrapperStartIsTheMatch(s, |text| - 1);
    assert s[..|text|] == text;
  }

  /** A stray brace after a balanced text ending in a brace is taken off. */
  lemma RepairUndoesBraceWrapper(text: string)
    requires LastIs(text, '}') && ScanText(text).depth == 0 && !ScanText(text).inString
    ensures Repair(text + "}") == text
  {
    var s := text + "}";
    assert s[..|s| - 1] == text;
    assert !IsSpace('}');
    TrimEndAt(text, |text| - 1);
    TrimEndAt(s, |s| - 1);
    assert s[..|s|] == s;
    assert text[..|text|] == text;
    assert WrapperStart(s) == None;
    assert !ScanText(text).escaped;
  }

  /** Repair leaves a candidate alone exactly when the wrapper does not match and
      the scan does not end one brace too deep before a final brace. */
  lemma RepairUnchanged(candidate: string)
    ensures Repair(candidate) == candidate
        <==> WrapperStart(candidate) == None
             && !(ScanText(candidate).depth == -1 && LastIs(TrimEnd(candidate), '}'))
  {
    var start := WrapperStart(candidate);
    if start.Some? {
      WrapperStartIsTheMatch(candidate, start.value);
      assert |Repair(candidate)| < |candidate|;
    }
  }

  lemma {:induction false} ScanIgnoresTrailingSpace(s: string, n: nat)
    requires n <= |s| && forall i :: n <= i < |s| ==> IsSpace(s[i])
    ensures ScanText(s).depth == ScanText(s[..n]).depth && ScanText(s).inString == ScanText(s[..n]).inString
    decreases |s|
  {
    if n == |s| {
      assert s[..n] == s;
    } else {
      var front := s[..|s| - 1];
      ScanIgnoresTrailingSpace(front, n);
      assert front[..n] == s[..n];
      assert IsSpace(s[|s| - 1]);
    }
  }

  /** How many backslashes a text ends with. */
  function TrailingBackslashes(s: string): nat {
    if LastIs(s, '\\') then 1 + TrailingBackslashes(s[..|s| - 1]) else 0
  }

  /** The scan ends escaped exactly after an odd number of backslashes. */
  lemma {:induction false} EscapedIffOddBackslashes(s: string)
    ensures ScanText(s).escaped <==> TrailingBackslashes(s) % 2 == 1
    decreases |s|
  {
    if s != "" {
      EscapedIffOddBackslashes(s[..|s| - 1]);
    }
  }

  lemma {:induction false} LastBraceAt(s: string, k: nat)
    requires k < |s| && s[k] == '}' && SpaceBetween(s, k + 1, |s|)
    ensures LastIndexOf(s, '}') == k
    decreases |s|
  {
    if k < |s| - 1 {
      LastBraceAt(s[..|s| - 1], k);
    }
  }

  /** A result shortened by the scan is balanced exactly when the candidate does not end
      inside a string and an even number of backslashes precedes its last brace;
      otherwise the brace taken off was text. */
  lemma ShortenedResultBalanced(candidate: string)
    requires WrapperStart(candidate) == None && Repair(candidate) != candidate
    ensures var k := LastIndexOf(candidate, '}');
      && 0 <= k && Repair(candidate) == candidate[..k]
      && (ScanText(candidate[..k]).depth == 0
          <==> !ScanText(candidate).inString && TrailingBackslashes(candidate[..k]) % 2 == 0)
  {
    var trimmed := TrimEnd(candidate);
    var k := |trimmed| - 1;
    assert trimmed == candidate[..k + 1];
    LastBraceAt(candidate, k);
    ScanIgnoresTrailingSpace(candidate, k + 1);
    assert trimmed[..k] == candidate[..k];
    assert ScanText(trimmed) == ScanStep(ScanText(candidate[..k]), '}');
    EscapedIffOddBackslashes(candidate[..k]);
    StepOverBrace(ScanText(candidate[..k]));
  }

  /** A brace lowers the depth exactly when it is read neither escaped nor in a string. */
  lemma StepOverBrace(st: Scan)
    ensures ScanStep(st, '}').inString == st.inString
    ensures ScanStep(st, '}').depth == st.depth - (if !st.escaped && !st.inString then 1 else 0)
  {
  }

  /** The escaped case happens: the repair of  }\}  is  }\  which is not balanced. */
  lemma EscapedBraceIsNotBalanced()
    ensures Repair("}\\}") == "}\\" && ScanText("}\\").depth == -1
  {
    var s := "}\\}";
    assert s[..2] == "}\\" && s[..2][..1] == "}" && s[..1][..0] == "";
    assert ScanText("") == Scan(0, false, false);
    assert ScanText("}") == Scan(-1, false, false);
    assert ScanText("}\\") == Scan(-1, false, true);
    assert ScanText(s) == Scan(-1, false, false);
    TrimEndAt(s, 2);
    TrimEndAt(s[..2], 1);
  }

  // ----- parseFinalJsonObject -----

  /** JSON.parse, None for a syntax error; and the capture of the ```json fence. */
  datatype Reader = Reader(parse: string -> Option<Json>, fence: string -> Option<string>)

  datatype FinalJson = FinalJson(obj: Option<seq<(string, Json)>>, strict: bool, repaired: bool)

  function Candidates(r: Reader, resultText: string): seq<string> {
    var fenced := r.fence(resultText);
    var first, last := IndexOf(resultText, '{'), LastIndexOf(resultText, '}');
    (if fenced.Some? && fenced.value != "" then [Trim(fenced.value)] else [])
    + (if first < |resultText| && last > first then [resultText[first..last + 1]] else [])
  }

  /** What one candidate yields, None to go on with the next. */
  function FromCandidate(r: Reader, candidate: string): Option<FinalJson> {
    match r.parse(candidate)
    case Some(JObj(fields)) => Some(FinalJson(Some(fields), true, false))
    case Some(_) => None
    case None =>
      if Repair(candidate) == candidate then None
      else match r.parse(Repair(candidate))
        case Some(JObj(fields)) => Some(FinalJson(Some(fields), false, true))
        case _ => None
  }

  function FromCandidates(r: Reader, candidates: seq<string>): FinalJson {
    if candidates == [] then FinalJson(None, false, false)
    else FromCandidate(r, candidates[0]).GetOr(FromCandidates(r, candidates[1..]))
  }

  function ParseFinal(r: Reader, resultText: string): FinalJson {
    FromCandidates(r, Candidates(r, resultText))
  }

  method ParseFinalJsonObject(r: Reader, resultText: string) returns (final: FinalJson)
    ensures final == ParseFinal(r, resultText)
  {
    var candidates := Candidates(r, resultText);
    for i := 0 to |candidates|
      invariant FromCandidates(r, candidates) == FromCandidates(r, candidates[i..])
    {
      var parsed := r.parse(candidates[i]);
      if parsed.Some? {
        if parsed.value.JObj? {
          return FinalJson(Some(parsed.value.fields), true, false);
        }
      } else {
        var repaired := RepairTrailingQuotedJsonObject(candidates[i]);
        if repaired != candidates[i] {
          var again := r.parse(repaired);
          if again.Some? && again.value.JObj? {
            return FinalJson(Some(again.value.fields), false, true);
          }
        }
      }
    }
    return FinalJson(None, false, false);
  }

  lemma CandidateWasParsed(r: Reader, c: string)
    ensures FromCandidate(r, c).Some? ==>
      var f := FromCandidate(r, c).value;
      && f.obj.Some? && f.strict == !f.repaired
      && (f.strict ==> r.parse(c) == Some(JObj(f.obj.value)))
      && (f.repaired ==> r.parse(c) == None && Repair(c) != c && r.parse(Repair(c)) == Some(JObj(f.obj.value)))
  {
  }

  /** An accepted object was really parsed: from a candidate as it stands, or from
      the repair of a candidate that does not parse. */
  lemma {:induction false} AcceptedObjectWasParsed(r: Reader, candidates: seq<string>)
    ensures var f := FromCandidates(r, candidates);
      && (f.obj.Some? <==> f.strict || f.repaired)
      && !(f.strict && f.repaired)
      && (f.strict ==> exists c :: c in candidates && r.parse(c) == Some(JObj(f.obj.value)))
      && (f.repaired ==> exists c :: c in candidates && r.parse(c) == None
                                     && Repair(c) != c && r.parse(Repair(c)) == Some(JObj(f.obj.value)))
  {
    if candidates != [] {
      AcceptedObjectWasParsed(r, candidates[1..]);
      CandidateWasParsed(r, candidates[0]);
      assert candidates == [candidates[0]] + candidates[1..];
    }
  }

  predicate ObjectText(text: string) {
    LastIs(text, '}') && text[0] == '{' && |text| > 1
  }

  lemma BraceSlice(before: string, text: string, after: string)
    requires '{' !in before && '}' !in after && ObjectText(text)
    ensures var whole := before + text + after;
            var first, last := IndexOf(whole, '{'), LastIndexOf(whole, '}');
            first == |before| && last == |before| + |text| - 1 && whole[first..last + 1] == text
  {
    var whole := before + text + after;
    assert whole[|before|] == '{';
    assert whole[|before| + |text| - 1] == '}';
    forall j | |before| + |text| <= j < |whole| ensures whole[j] != '}' {
      assert whole[j] == after[j - |before| - |text|];
    }
    forall j | 0 <= j < |before| ensures whole[j] != '{' {
      assert whole[j] == before[j];
    }
  }

  /** From raw model output to object: an object wrapped by a stray quote and brace,
      in prose without braces, is recovered and reported as repaired. */
  lemma QuoteWrappedObjectRecovered(r: Reader, before: string, text: string, after: string, fields: seq<(string, Json)>)
    requires '{' !in before && '}' !in after && ObjectText(text)
    requires r.fence(before + (text + "\"}") + after) == None
    requires r.parse(text) == Some(JObj(fields)) && r.parse(text + "\"}") == None
    ensures ParseFinal(r, before + (text + "\"}") + after) == FinalJson(Some(fields), false, true)
  {
    BraceSlice(before, text + "\"}", after);
    RepairUndoesQuoteWrapper(text);
    assert Candidates(r, before + (text + "\"}") + after) == [text + "\"}"];
  }

  /** The same for one stray brace after a balanced object. */
  lemma BraceWrappedObjectRecovered(r: Reader, before: string, text: string, after: string, fields: seq<(string, Json)>)
    requires '{' !in before && '}' !in after && ObjectText(text)
    requires ScanText(text).depth == 0 && !ScanText(text).inString
    requires r.fence(before + (text + "}") + after) == None
    requires r.parse(text) == Some(JObj(fields)) && r.parse(text + "}") == None
    ensures ParseFinal(r, before + (text + "}") + after) == FinalJson(Some(fields), false, true)
  {
    BraceSlice(before, text + "}", after);
    RepairUndoesBraceWrapper(text);
    assert Candidates(r, before + (text + "}") + after) == [text + "}"];
  }
}
