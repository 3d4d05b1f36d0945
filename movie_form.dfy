/**
 * The create/edit form: its six pieces of state, the rating filter applied
 * to every keystroke, the reset whenever the `movie` prop changes, and the
 * submit handler with its checks.
 *
 * Submitting awaits the parent's handler, so `handleSubmit` is modelled as
 * two steps around that await: `StartSubmit` (checks, then either an error or
 * the call) and `FinishSubmit` (what the handler's outcome does to the form).
 */
module MovieFormModel {
  import opened Wrappers
  import opened JsText
  import opened JsNumbers
  import opened MovieTypes

  const RequiredMessage := "Title and genre are required"
  const RatingMessage := "Rating must be a whole number between 1 and 5"
  const SaveFallback := "Failed to save movie"

  /** The four text inputs of the form. */
  datatype FormFields = FormFields(title: string, genre: string, rating: string, posterImage: string)

  // ---------------------------------------------------------------- initial values

  /** `x || ''` for an optional string property. */
  function OrEmpty(f: Option<string>): (s: string) {
    if f.Some? then f.value else ""
  }

  /** `movie.rating?.toString() || '1'` (an integer's rendering is never empty). */
  function RatingText(rating: Option<int>): (s: string)
    ensures s != []
  {
    if rating.Some? then IntToString(rating.value) else "1"
  }

  /** The field values the form takes for a `movie` prop: the movie's in edit mode, blanks with rating 1 otherwise. */
  function Prefill(movie: Option<Movie>): (f: FormFields)
    ensures movie.None? ==> f == FormFields("", "", "1", "")
    ensures movie.Some? ==> f.title == OrEmpty(movie.value.title) && f.genre == OrEmpty(movie.value.genre) &&
                            f.posterImage == OrEmpty(movie.value.posterImage)
    ensures movie.Some? && movie.value.rating.None? ==> f.rating == "1"
    ensures movie.Some? && movie.value.rating.Some? ==> f.rating == IntToString(movie.value.rating.value)
  {
    match movie
    case None => FormFields("", "", "1", "")
    case Some(m) => FormFields(OrEmpty(m.title), OrEmpty(m.genre), RatingText(m.rating), OrEmpty(m.posterImage))
  }

  // ---------------------------------------------------------------- validation

  /** `s || null` */
  function NullIfEmpty(s: string): (r: Option<string>)
    ensures r.None? <==> s == []
    ensures r.Some? ==> r.value == s
  {
    if s == [] then None else Some(s)
  }

  /** What a successful submit sends: both names present, every text trimmed, rating 1 to 5, no blank poster. */
  predicate IsNormal(p: Payload) {
    p.title != [] && IsTrimmed(p.title) &&
    p.genre != [] && IsTrimmed(p.genre) &&
    1 <= p.rating <= 5 &&
    (p.posterImage.Some? ==> p.posterImage.value != [] && IsTrimmed(p.posterImage.value))
  }

  /** The rating check of `handleSubmit`: `parseInt` gives 1 to 5 and `parseFloat` gives a whole number. */
  predicate RatingAccepted(rating: string)
    ensures RatingAccepted(rating) ==> exists i :: 0 <= i < |rating| && IsDigit(rating[i])
  {
    var n := ParseInt(rating);
    n.Some? && 1 <= n.value <= 5 && IsInteger(ParseFloat(rating))
  }

  /**
   * The checks of `handleSubmit`, in their order: blank title or genre
   * first, then the rating; otherwise the payload with every text trimmed,
   * the `parseInt` rating and a blank poster sent as `null`. What it sends
   * is always normal.
   */
  function Validate(f: FormFields): (r: Result<Payload, string>)
    ensures r.Failure? ==> r.error == RequiredMessage || r.error == RatingMessage
    ensures r.Success? ==> IsNormal(r.value)
  {
    if Trim(f.title) == [] || Trim(f.genre) == [] then
      Failure(RequiredMessage)
    else if !RatingAccepted(f.rating) then
      Failure(RatingMessage)
    else
      Success(Payload(Trim(f.title), Trim(f.genre), ParseInt(f.rating).value, NullIfEmpty(Trim(f.posterImage))))
  }

  /**
   * Which verdict `Validate` gives: the required-fields message exactly when
   * a name is blank, the rating message exactly when both names are present
   * and the rating check fails, and otherwise the trimmed fields with the
   * `parseInt` rating.
   */
  lemma ValidateVerdict(f: FormFields)
    ensures Validate(f) == Failure(RequiredMessage) <==> Trim(f.title) == [] || Trim(f.genre) == []
    ensures Validate(f) == Failure(RatingMessage) <==>
              Trim(f.title) != [] && Trim(f.genre) != [] && !RatingAccepted(f.rating)
    ensures Validate(f).Success? <==> Trim(f.title) != [] && Trim(f.genre) != [] && RatingAccepted(f.rating)
    ensures Validate(f).Success? ==>
              Validate(f).value.title == Trim(f.title) && Validate(f).value.genre == Trim(f.genre) &&
              ParseInt(f.rating) == Some(Validate(f).value.rating) &&
              Validate(f).value.posterImage == NullIfEmpty(Trim(f.posterImage))
  {
    assert |RequiredMessage| != |RatingMessage|;
  }

  /** The field values that show payload `p`. */
  function FieldsOf(p: Payload): (f: FormFields) {
    FormFields(p.title, p.genre, IntToString(p.rating), OrEmpty(p.posterImage))
  }

  /** The rendering of a rating from 1 to 5 passes the submit check and reads back as that rating. */
  lemma RatingTextAccepted(n: int)
    requires 1 <= n <= 5
    ensures RatingAccepted(IntToString(n)) && ParseInt(IntToString(n)) == Some(n)
  {
    ParseNatString(n);
  }

  /** The poster field showing a normal payload's poster trims back to it. */
  lemma PosterRoundTrip(poster: Option<string>)
    requires poster.Some? ==> poster.value != [] && IsTrimmed(poster.value)
    ensures NullIfEmpty(Trim(OrEmpty(poster))) == poster
  {
    if poster.None? {
      assert OrEmpty(poster) == [];
    }
  }

  /** A payload the form sends, typed back into the form, is sent again unchanged. */
  lemma {:induction false} RevalidateNormal(p: Payload)
    requires IsNormal(p)
    ensures Validate(FieldsOf(p)) == Success(p)
  {
    var f := FieldsOf(p);
    RatingTextAccepted(p.rating);
    PosterRoundTrip(p.posterImage);
    assert Trim(f.title) == p.title && Trim(f.genre) == p.genre;
  }

  /** Validation is idempotent: submitting the fields of an accepted payload gives that payload. */
  lemma ValidateIdempotent(f: FormFields)
    requires Validate(f).Success?
    ensures Validate(FieldsOf(Validate(f).value)) == Validate(f)
  {
    RevalidateNormal(Validate(f).value);
  }

  /**
   * Opening a saved movie for editing and submitting without changes sends
   * the payload it was saved from.
   */
  lemma EditRoundTrip(id: int, p: Payload)
    requires IsNormal(p)
    ensures Validate(Prefill(Some(Movie(id, Some(p.title), Some(p.genre), Some(p.rating), p.posterImage)))) == Success(p)
  {
    RevalidateNormal(p);
  }

  /** The blank create-mode form fails on the required fields. */
  lemma CreateModeRequiresNames()
    ensures Validate(Prefill(None)) == Failure(RequiredMessage)
  {
  }

  // ---------------------------------------------------------------- rating filter

  /** The rating input's `onChange` admits `''` or a `parseFloat` value that is a whole number from 1 to 5. */
  predicate RatingInputAdmitted(value: string)
    ensures RatingInputAdmitted(value) && value != [] ==> exists i :: 0 <= i < |value| && IsDigit(value[i])
  {
    value == [] || (IsInteger(ParseFloat(value)) && Between(ParseFloat(value), 1, 5))
  }

  /** The filter and the submit check agree on plain decimal numbers: both accept exactly 1 to 5. */
  lemma {:induction false} DecimalRatings(n: nat)
    ensures RatingInputAdmitted(NatToString(n)) <==> 1 <= n <= 5
    ensures RatingAccepted(NatToString(n)) <==> 1 <= n <= 5
  {
    ParseNatString(n);
  }

  /** With both names present, a rating the submit check refuses gives the rating message. */
  lemma RatingRejected(f: FormFields)
    requires Trim(f.title) != [] && Trim(f.genre) != [] && !RatingAccepted(f.rating)
    ensures Validate(f) == Failure(RatingMessage)
  {
  }

  /** `parseInt` finds no digits in an empty rating. */
  lemma EmptyRatingParse()
    ensures ParseInt("") == None
  {
    assert TrimStart("") == [];
    assert SplitSign("") == ([], false);
    assert DigitRun("") == [];
  }

  /** An empty rating passes the filter but not the submit check. */
  lemma EmptyRatingRejectedAtSubmit(title: string, genre: string, posterImage: string)
    requires Trim(title) != [] && Trim(genre) != []
    ensures RatingInputAdmitted("")
    ensures Validate(FormFields(title, genre, "", posterImage)) == Failure(RatingMessage)
  {
    EmptyRatingParse();
    RatingRejected(FormFields(title, genre, "", posterImage));
  }

  /** The exponent part "e1" reads as 1. */
  lemma PlusOneExponent()
    ensures ExponentAt("e1") == 1
  {
    assert "e1"[0] == 'e' && "e1"[1..] == "1";
    assert SplitSign("1") == ("1", false);
    DigitRunUpTo("1", 1);
    assert "1"[..1] == "1" && "1"[..0] == [];
    assert DigitsValue("1") == 1;
  }

  /** The exponent part "e-1" reads as -1. */
  lemma MinusOneExponent()
    ensures ExponentAt("e-1") == -1
  {
    assert "e-1"[0] == 'e' && "e-1"[1..] == "-1";
    assert SplitSign("-1") == ("1", true);
    DigitRunUpTo("1", 1);
    assert "1"[..1] == "1" && "1"[..0] == [];
    assert DigitsValue("1") == 1;
  }

  /**
   * A number followed by an exponent part: `parseInt` stops at the `e` and
   * reads the number, while `parseFloat` scales the number by the exponent.
   */
  lemma {:induction false} NumberThenExponent(n: nat, exponent: string)
    requires exponent != [] && exponent[0] == 'e'
    ensures ParseInt(NatToString(n) + exponent) == Some(n)
    ensures ParseFloat(NatToString(n) + exponent) == Scaled(false, n, ExponentAt(exponent))
  {
    var digits := NatToString(n);
    var s := digits + exponent;
    assert s[..|digits|] == digits && s[|digits|..] == exponent;
    NatToStringRoundTrip(n);
    ParseIntStops(s, |digits|);
    ParseFloatStops(s, |digits|);
  }

  /** `10 * n` tenths is the whole number `n`. */
  lemma TenthIsInteger(n: nat)
    ensures IsInteger(Finite(10 * n, 10))
  {
    assert (10 * n) % 10 == 0;
  }

  /** `parseFloat` reads `n` followed by "e1" as `10 * n`, and `parseInt` reads it as `n`. */
  lemma TimesTenExponent(n: nat)
    ensures ParseFloat(NatToString(n) + "e1") == Finite(10 * n, 1)
    ensures ParseInt(NatToString(n) + "e1") == Some(n)
  {
    PlusOneExponent();
    NumberThenExponent(n, "e1");
    ScaledByTen(n);
  }

  /** `parseFloat` reads `10 * n` followed by "e-1" as `n`, and `parseInt` reads it as `10 * n`. */
  lemma TenthExponent(n: nat)
    ensures ParseFloat(NatToString(10 * n) + "e-1") == Finite(10 * n, 10)
    ensures ParseInt(NatToString(10 * n) + "e-1") == Some(10 * n)
  {
    MinusOneExponent();
    NumberThenExponent(10 * n, "e-1");
    ScaledByTen(10 * n);
  }

  /**
   * The filter and the submit check read exponents differently. For a
   * rating `n` from 1 to 5, `n` followed by "e1" is `10 * n` to
   * `parseFloat` and `n` to `parseInt`: the filter refuses it, and the
   * submit check accepts it as rating `n`. `10 * n` followed by "e-1" is
   * `n` to `parseFloat` and `10 * n` to `parseInt`: the filter admits it,
   * and the submit check refuses it.
   */
  lemma ExponentRatings(n: nat)
    requires 1 <= n <= 5
    ensures !RatingInputAdmitted(NatToString(n) + "e1")
    ensures RatingAccepted(NatToString(n) + "e1") && ParseInt(NatToString(n) + "e1") == Some(n)
    ensures RatingInputAdmitted(NatToString(10 * n) + "e-1")
    ensures !RatingAccepted(NatToString(10 * n) + "e-1")
  {
    var up := NatToString(n) + "e1";
    var down := NatToString(10 * n) + "e-1";
    TimesTenExponent(n);
    TenthExponent(n);
    assert up != [] && down != [];
    assert IsInteger(ParseFloat(up)) && !Between(ParseFloat(up), 1, 5);
    TenthIsInteger(n);
    assert IsInteger(ParseFloat(down)) && Between(ParseFloat(down), 1, 5);
  }

  /**
   * `m` and one more digit `c` as tenths: a whole number exactly when `c` is
   * `'0'`, and then a whole number from 1 to 5 exactly when `m` is.
   */
  lemma TenthsRating(x: Number, m: nat, c: char)
    requires IsDigit(c) && x == Finite(10 * m + DigitValue(c), 10)
    ensures IsInteger(x) <==> c == '0'
    ensures IsInteger(x) && Between(x, 1, 5) <==> c == '0' && 1 <= m <= 5
  {
    var d := DigitValue(c);
    DigitZero(c);
    assert (10 * m + d) % 10 == d;
  }

  /** The keystroke filter on any text that `parseFloat` reads as `m` and one more digit `c` in tenths. */
  lemma TenthsAdmitted(s: string, m: nat, c: char)
    requires IsDigit(c) && ParseFloat(s) == Finite(10 * m + DigitValue(c), 10)
    ensures RatingInputAdmitted(s) <==> c == '0' && 1 <= m <= 5
  {
    TenthsRating(ParseFloat(s), m, c);
  }

  /** The submit check on any text that `parseInt` reads as `m` and `parseFloat` as `m` and one more digit `c` in tenths. */
  lemma TenthsAccepted(s: string, m: nat, c: char)
    requires IsDigit(c) && ParseInt(s) == Some(m) && ParseFloat(s) == Finite(10 * m + DigitValue(c), 10)
    ensures RatingAccepted(s) <==> c == '0' && 1 <= m <= 5
  {
    TenthsRating(ParseFloat(s), m, c);
  }

  /**
   * Ratings with a fractional part, the texts the `parseFloat` check is there
   * to refuse: the keystroke filter admits `k` digits followed by a `.` and
   * one more digit exactly when that digit is 0 and the whole part is from 1
   * to 5 (so "2.5" is refused and "2.0" is admitted).
   */
  lemma FractionAdmitted(s: string, k: nat)
    requires 0 < k && |s| == k + 2 && AllDigits(s[..k]) && s[k] == '.' && IsDigit(s[k + 1])
    ensures RatingInputAdmitted(s) <==> s[k + 1] == '0' && 1 <= DigitsValue(s[..k]) <= 5
  {
    ParseFloatFraction(s, k);
    TenthsAdmitted(s, DigitsValue(s[..k]), s[k + 1]);
  }

  /**
   * The submit check agrees with the filter on such fractions: `parseInt`
   * stops at the `.` and reads the whole part, and the text is accepted
   * exactly when the fraction digit is 0 and the whole part is from 1 to 5.
   */
  lemma FractionAccepted(s: string, k: nat)
    requires 0 < k && |s| == k + 2 && AllDigits(s[..k]) && s[k] == '.' && IsDigit(s[k + 1])
    ensures ParseInt(s) == Some(DigitsValue(s[..k]))
    ensures RatingAccepted(s) <==> s[k + 1] == '0' && 1 <= DigitsValue(s[..k]) <= 5
  {
    ParseIntStops(s, k);
    ParseFloatFraction(s, k);
    TenthsAccepted(s, DigitsValue(s[..k]), s[k + 1]);
  }

  // ---------------------------------------------------------------- the form

  class MovieForm {
    var title: string
    var genre: string
    var rating: string
    var posterImage: string
    var isSubmitting: bool
    var error: Option<string>

    function Fields(): (f: FormFields)
      reads this`title, this`genre, this`rating, this`posterImage
    {
      FormFields(title, genre, rating, posterImage)
    }

    /** Mounting the form with a `movie` prop: its `useState` initial values, then the reset effect. */
    constructor (movie: Option<Movie>)
      ensures Fields() == Prefill(movie)
      ensures !isSubmitting && error == None
    {
      var f := Prefill(movie);
      title, genre, rating, posterImage := f.title, f.genre, f.rating, f.posterImage;
      isSubmitting := false;
      error := None;
    }

    /** The effect run when the `movie` prop changes: fields from the movie (or blanks), error cleared. */
    method ResetFromMovie(movie: Option<Movie>)
      modifies this`title, this`genre, this`rating, this`posterImage, this`error
      ensures Fields() == Prefill(movie)
      ensures error == None
    {
      if movie.Some? {
        title := OrEmpty(movie.value.title);
        genre := OrEmpty(movie.value.genre);
        rating := RatingText(movie.value.rating);
        posterImage := OrEmpty(movie.value.posterImage);
      } else {
        title := "";
        genre := "";
        rating := "1";
        posterImage := "";
      }
      error := None;
    }

    method ChangeTitle(value: string)
      modifies this`title
      ensures title == value
    {
      title := value;
    }

    method ChangeGenre(value: string)
      modifies this`genre
      ensures genre == value
    {
      genre := value;
    }

    method ChangePosterImage(value: string)
      modifies this`posterImage
      ensures posterImage == value
    {
      posterImage := value;
    }

    /** The rating input's `onChange`: the new text is taken only when the filter admits it. */
    method ChangeRating(value: string)
      modifies this`rating
      ensures RatingInputAdmitted(value) ==> rating == value
      ensures !RatingInputAdmitted(value) ==> rating == old(rating)
    {
      if value == "" || (IsInteger(ParseFloat(value)) && Between(ParseFloat(value), 1, 5)) {
        rating := value;
      }
    }

    /**
     * `handleSubmit` up to the awaited call: clears the error, runs the
     * checks, returns early with the first failing check's message, and
     * otherwise marks the form as submitting and returns the payload it calls
     * `onSubmit` with. The fields are outside the frame, so they are unchanged.
     */
    method StartSubmit() returns (call: Option<Payload>)
      modifies this`error, this`isSubmitting
      ensures Validate(Fields()).Failure? ==>
                call.None? && error == Some(Validate(Fields()).error) && isSubmitting == old(isSubmitting)
      ensures Validate(Fields()).Success? ==>
                call == Some(Validate(Fields()).value) && error == None && isSubmitting
    {
      error := None;
      var verdict := Validate(Fields());
      if verdict.Failure? {
        error := Some(verdict.error);
        return None;
      }
      isSubmitting := true;
      call := Some(verdict.value);
    }

    /**
     * `handleSubmit` after the awaited call: a rejection's message becomes
     * the error, and the form stops submitting either way.
     */
    method FinishSubmit(rejection: Option<Exception>)
      modifies this`error, this`isSubmitting
      ensures !isSubmitting
      ensures rejection.Some? ==> error == Some(MessageOr(rejection.value, SaveFallback))
      ensures rejection.None? ==> error == old(error)
    {
      if rejection.Some? {
        error := Some(MessageOr(rejection.value, SaveFallback));
      }
      isSubmitting := false;
    }

    /**
     * The whole `handleSubmit`, given what `onSubmit` does if called
     * (`None`: it resolves; `Some(e)`: it throws `e`).
     */
    method Submit(onSubmit: Option<Exception>) returns (call: Option<Payload>)
      modifies this`error, this`isSubmitting
      ensures Fields() == old(Fields())
      ensures call.None? <==> Validate(Fields()).Failure?
      ensures call.None? ==> error == Some(Validate(Fields()).error) && isSubmitting == old(isSubmitting)
      ensures call.Some? ==> call.value == Validate(Fields()).value && !isSubmitting
      ensures call.Some? && onSubmit.None? ==> error == None
      ensures call.Some? && onSubmit.Some? ==> error == Some(MessageOr(onSubmit.value, SaveFallback))
    {
      call := StartSubmit();
      if call.Some? {
        FinishSubmit(onSubmit);
      }
    }
  }
}
