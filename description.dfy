/** The `Description` value object: a normalised, length-checked description text. */
module ValueObjects {
  import opened Wrappers
  import opened Text
  import opened Errors

  const MaxDescriptionLength: nat := 1000
  const DescriptionTooLong: string := "Description cannot exceed 1000 characters"

  /** Equality is by `value` alone, as `GetEqualityComponents` yields only `Value`. */
  datatype Description = Description(value: string) {

    /** `IsEmpty`: `Value` is never null, so only the empty description is empty. */
    predicate IsEmpty()
      ensures IsEmpty() <==> this == Description("")
    {
      value == ""
    }

    /**
     * `ToString()`; the implicit conversion to `string` returns the same
     * text. Nothing is lost: the text determines the description.
     */
    function ToString(): (r: string)
      ensures Description(r) == this
    {
      value
    }

    /**
     * `Description.Create`. Null or white-space input becomes the empty
     * description; input longer than 1000 characters is rejected, measured
     * before trimming; anything else is kept trimmed, which leaves a
     * non-empty text of at most 1000 characters with no white space at
     * either end.
     */
    static function Create(description: Option<string>): (r: Result<Description, Exception>)
      ensures IsNullOrWhiteSpace(description) <==> r == Success(Description(""))
      ensures r.Success? && r.value.IsEmpty() <==> IsNullOrWhiteSpace(description)
      ensures r.Failure? <==> !IsNullOrWhiteSpace(description) && |description.value| > MaxDescriptionLength
      ensures r.Failure? ==> r.error == ArgumentException(PlainArgument, DescriptionTooLong, Some("description"))
      ensures r.Success? ==> |r.value.value| <= MaxDescriptionLength
      ensures r.Success? && r.value.value != [] ==>
        !IsWhiteSpace(r.value.value[0]) && !IsWhiteSpace(r.value.value[|r.value.value| - 1])
    {
      if IsNullOrWhiteSpace(description) then
        Success(Description(""))
      else if |description.value| > MaxDescriptionLength then
        Failure(ArgumentException(PlainArgument, DescriptionTooLong, Some("description")))
      else
        TrimEmptyIff(description.value);
        Success(Description(Trim(description.value)))
    }
  }

  /** A kept description is the input with its surrounding white space removed and nothing else. */
  lemma CreateKeepsTrimmedInput(s: string)
    requires !AllWhiteSpace(s) && |s| <= MaxDescriptionLength
    ensures var d := Description.Create(Some(s)).value.value;
      d == s[TrimOffset(s)..TrimOffset(s) + |d|]
      && AllWhiteSpace(s[..TrimOffset(s)]) && AllWhiteSpace(s[TrimOffset(s) + |d|..])
  {
    TrimPiece(s);
  }

  /** Normalising an already normalised description changes nothing. */
  lemma CreateIdempotent(s: Option<string>)
    requires Description.Create(s).Success?
    ensures Description.Create(Some(Description.Create(s).value.value)) == Description.Create(s)
  {
    if !IsNullOrWhiteSpace(s) {
      var t := Trim(s.value);
      TrimEmptyIff(s.value);
      TrimIdempotent(s.value);
      TrimEmptyIff(t);
      assert !AllWhiteSpace(t);
    }
  }
}
