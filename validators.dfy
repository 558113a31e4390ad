/**
 * Request-field validators of the vector-index gateway. Each one is a chain of
 * guards that returns `None` for an acceptable value or the first failure
 * message. Values are the Python values a JSON request body decodes to.
 */
module Validators {
  import opened Python

  const MsgNameRequired := "index_name is required"
  const MsgNameInvalid := "Invalid index_name: Only letters, numbers, and underscores are allowed"
  const MsgDimensionRequired := "dimension is required"
  const MsgDimensionNotInt := "dimension must be an integer"
  const MsgDimensionNotPositive := "dimension must be a positive integer"
  const MsgVectorNotList := "vector must be a non-empty list"
  const MsgVectorNotNumbers := "vector must contain only numbers"
  const DefaultMaxK := 512

  // ---------------------------------------------------------------------------
  // The index-name pattern `^[A-Za-z0-9_]+$`, used with `fullmatch`

  /** The character class of the pattern, as its four ranges. */
  const IndexNameRanges: seq<(char, char)> := [('A', 'Z'), ('a', 'z'), ('0', '9'), ('_', '_')]

  predicate InRanges(c: char, ranges: seq<(char, char)>)
  {
    ranges != [] && ((ranges[0].0 <= c <= ranges[0].1) || InRanges(c, ranges[1..]))
  }

  /** `fullmatch` of a one-or-more repetition of the class: consume a character, then the rest. */
  predicate FullMatchPlus(ranges: seq<(char, char)>, s: string)
  {
    |s| > 0 && InRanges(s[0], ranges) && (|s| == 1 || FullMatchPlus(ranges, s[1..]))
  }

  /** The meaning of the class: an ASCII letter, an ASCII digit or an underscore. */
  predicate IsNameChar(c: char)
  {
    ('A' <= c <= 'Z') || ('a' <= c <= 'z') || ('0' <= c <= '9') || c == '_'
  }

  /** Accepted index names: non-empty, made only of name characters. */
  predicate IsValidName(s: string)
  {
    |s| > 0 && forall i :: 0 <= i < |s| ==> IsNameChar(s[i])
  }

  lemma NameRangesMeanNameChar(c: char)
    ensures InRanges(c, IndexNameRanges) <==> IsNameChar(c)
  {
    var r := IndexNameRanges;
    var r1, r2, r3 := r[1..], r[2..], r[3..];
    assert r1[1..] == r2 && r2[1..] == r3 && r3[1..] == [];
    assert InRanges(c, r3) <==> c == '_';
    assert InRanges(c, r2) <==> ('0' <= c <= '9') || c == '_';
    assert InRanges(c, r1) <==> ('a' <= c <= 'z') || ('0' <= c <= '9') || c == '_';
  }

  lemma {:induction false} FullMatchMeansValidName(s: string)
    ensures FullMatchPlus(IndexNameRanges, s) <==> IsValidName(s)
  {
    if |s| > 0 {
      NameRangesMeanNameChar(s[0]);
      if |s| > 1 {
        FullMatchMeansValidName(s[1..]);
        assert forall i :: 1 <= i < |s| ==> s[i] == s[1..][i - 1];
      }
    }
  }

  /**
   * `validate_index_name`: a missing or falsy value is "required"; a truthy value
   * that is not a string makes `fullmatch` raise `TypeError`.
   */
  function ValidateIndexName(name: Json): (r: Outcome<Option<string>>)
    ensures r == Returned(Some(MsgNameRequired)) <==> !Truthy(name)
    ensures r == Returned(None) <==> name.JStr? && IsValidName(name.s)
    ensures r == Returned(Some(MsgNameInvalid)) <==> name.JStr? && name.s != "" && !IsValidName(name.s)
    ensures r.Raised? <==> Truthy(name) && !name.JStr?
    ensures r.Raised? ==> r.exc == TypeError
  {
    if name == JNull || !Truthy(name) then Returned(Some(MsgNameRequired))
    else if !name.JStr? then Raised(TypeError)
    else
      FullMatchMeansValidName(name.s);
      if !FullMatchPlus(IndexNameRanges, name.s) then Returned(Some(MsgNameInvalid))
      else Returned(None)
  }

  // ---------------------------------------------------------------------------

  /** `validate_dimension`: required, then a genuine (non-bool) integer, then positive. */
  function ValidateDimension(dimension: Json): (r: Option<string>)
    ensures r == Some(MsgDimensionRequired) <==> dimension == JNull
    ensures r == Some(MsgDimensionNotInt) <==> dimension != JNull && !dimension.JInt?
    ensures r == Some(MsgDimensionNotPositive) <==> dimension.JInt? && dimension.i <= 0
    ensures r == None <==> dimension.JInt? && dimension.i > 0
  {
    if dimension == JNull then Some(MsgDimensionRequired)
    else if dimension.JBool? || !dimension.JInt? then Some(MsgDimensionNotInt)
    else if dimension.i <= 0 then Some(MsgDimensionNotPositive)
    else None
  }

  /** The single `top_k` message; it names the bound. */
  function TopKMessage(maxK: int): string
  {
    "top_k must be an integer between 1 and " + DecimalString(maxK)
  }

  /** `validate_top_k`: a non-bool integer in `[1, max_k]`. */
  function ValidateTopK(topK: Json, maxK: int := DefaultMaxK): (r: Option<string>)
    ensures r == None <==> topK.JInt? && 1 <= topK.i <= maxK
    ensures r != None ==> r == Some(TopKMessage(maxK))
  {
    if topK.JBool? || !topK.JInt? || topK.i <= 0 || topK.i > maxK then Some(TopKMessage(maxK))
    else None
  }

  /** The bound written into the `top_k` message reads back as `max_k`. */
  lemma TopKMessageNamesBound(maxK: int)
    ensures var m := TopKMessage(maxK);
      |m| > 39 && m[..39] == "top_k must be an integer between 1 and " && ParseDecimal(m[39..]) == maxK
  {
    var m := TopKMessage(maxK);
    assert m[39..] == DecimalString(maxK);
    DecimalStringRoundTrip(maxK);
  }

  // ---------------------------------------------------------------------------

  /** `isinstance(x, (int, float))`; `bool` is a subclass of `int`, so booleans pass. */
  predicate IsNumber(x: Json)
  {
    x.JBool? || x.JInt? || x.JFloat?
  }

  /** The `all(...)` generator of `validate_vector`, element by element. */
  function AllNumbers(xs: seq<Json>): (r: bool)
    ensures r <==> forall i :: 0 <= i < |xs| ==> IsNumber(xs[i])
  {
    if xs == [] then true
    else
      assert forall i :: 1 <= i < |xs| ==> xs[i] == xs[1..][i - 1];
      IsNumber(xs[0]) && AllNumbers(xs[1..])
  }

  /** `validate_vector`: a non-empty list first, then numeric elements. */
  function ValidateVector(vector: Json): (r: Option<string>)
    ensures r == Some(MsgVectorNotList) <==> !vector.JList? || vector.items == []
    ensures r == Some(MsgVectorNotNumbers) <==>
      vector.JList? && vector.items != [] && exists i :: 0 <= i < |vector.items| && !IsNumber(vector.items[i])
    ensures r == None <==>
      vector.JList? && vector.items != [] && forall i :: 0 <= i < |vector.items| ==> IsNumber(vector.items[i])
  {
    if !vector.JList? || vector.items == [] then Some(MsgVectorNotList)
    else if !AllNumbers(vector.items) then Some(MsgVectorNotNumbers)
    else None
  }

  // ---------------------------------------------------------------------------

  function ChoiceMessage(value: string, allowed: seq<string>): string
  {
    value + " must be one of " + ListStr(Sort(allowed))
  }

  /** `validate_choice`: membership, with the allowed values listed in sorted order. */
  function ValidateChoice(value: string, allowed: seq<string>): (r: Option<string>)
    ensures r == None <==> value in allowed
    ensures r != None ==> r == Some(ChoiceMessage(value, allowed))
  {
    if value !in allowed then Some(ChoiceMessage(value, allowed)) else None
  }

  /**
   * The message lists exactly the allowed values, ascending; so it does not
   * depend on the order in which the container yields them.
   */
  lemma ChoiceMessageDeterministic(value: string, a: seq<string>, b: seq<string>)
    requires multiset(a) == multiset(b)
    ensures ValidateChoice(value, a) == ValidateChoice(value, b)
    ensures Sorted(Sort(a)) && multiset(Sort(a)) == multiset(a)
  {
    SortDeterministic(a, b);
    SortSorted(a);
    assert value in a <==> value in multiset(a);
    assert value in b <==> value in multiset(b);
  }

  const PrecisionChoices := ["int8d", "int16d", "float16", "float32", "binary"]
  const SortedPrecisionChoices := ["binary", "float16", "float32", "int16d", "int8d"]

  /** The precision example: an unknown choice is refused and the five names are listed ascending. */
  lemma ChoiceExample(value: string, allowed: seq<string>)
    requires value == "int9" && allowed == PrecisionChoices
    ensures ValidateChoice(value, allowed) == Some(value + " must be one of " + ListStr(SortedPrecisionChoices))
  {
    ChoiceExampleRefused(value, allowed);
    ChoiceExampleMessage(value, allowed);
  }

  lemma ChoiceExampleRefused(value: string, allowed: seq<string>)
    requires value == "int9" && allowed == PrecisionChoices
    ensures ValidateChoice(value, allowed) == Some(ChoiceMessage(value, allowed))
  {
    assert value !in allowed;
  }

  lemma ChoiceExampleMessage(value: string, allowed: seq<string>)
    requires allowed == PrecisionChoices
    ensures ChoiceMessage(value, allowed) == value + " must be one of " + ListStr(SortedPrecisionChoices)
  {
    SortOfChoices();
  }

  lemma SortOfChoices()
    ensures Sort(PrecisionChoices) == SortedPrecisionChoices
  {
    var allowed := PrecisionChoices;
    var sorted := SortedPrecisionChoices;
    assert allowed == [sorted[4], sorted[3], sorted[1], sorted[2], sorted[0]];
    assert multiset(allowed) == multiset(sorted);
    forall i, j | 0 <= i < j < |sorted| ensures LexLeq(sorted[i], sorted[j]) {
      LexOrderOfChoices(i, j);
    }
    SortOfPermutation(allowed, sorted);
  }

  lemma LexOrderOfChoices(i: int, j: int)
    requires 0 <= i < j < 5
    ensures LexLeq(SortedPrecisionChoices[i], SortedPrecisionChoices[j])
  {
    assert LexLeq("float16", "float32") by {
      assert "float16"[1..] == "loat16" && "float32"[1..] == "loat32";
      assert "loat16"[1..] == "oat16" && "loat32"[1..] == "oat32";
      assert "oat16"[1..] == "at16" && "oat32"[1..] == "at32";
      assert "at16"[1..] == "t16" && "at32"[1..] == "t32";
      assert "t16"[1..] == "16" && "t32"[1..] == "32";
    }
    assert LexLeq("int16d", "int8d") by {
      assert "int16d"[1..] == "nt16d" && "int8d"[1..] == "nt8d";
      assert "nt16d"[1..] == "t16d" && "nt8d"[1..] == "t8d";
      assert "t16d"[1..] == "16d" && "t8d"[1..] == "8d";
    }
  }
}
