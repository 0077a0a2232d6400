/** The well-formedness test fearQC.py applies to organizer and participant
    MGI IDs while it stages the input file, and the labels it records for the
    IDs it rejects. */
module MgiIds {
  import opened Text

  /** Digits with single underscores between them: the body Python 3's int()
      accepts (for ASCII digits). */
  predicate IsDigitGroups(s: string) {
    && |s| > 0
    && IsDigit(s[0]) && IsDigit(s[|s| - 1])
    && (forall i :: 0 <= i < |s| ==> IsDigit(s[i]) || s[i] == '_')
    && (forall i, j :: 0 <= i < |s| && 0 <= j < |s| && j == i + 1 ==> !(s[i] == '_' && s[j] == '_'))
  }

  /** `int(s)` does not raise: white space around, an optional sign, then
      digit groups. */
  predicate IsPyInt(s: string) {
    var t := Strip(s);
    var body := if |t| > 0 && (t[0] == '+' || t[0] == '-') then t[1..] else t;
    IsDigitGroups(body)
  }

  /** How the checker classifies one ID: well formed (carrying the text after
      the first colon up to the next one), rejected on its shape (no colon,
      empty suffix, or a prefix other than `MGI`), or rejected because the
      suffix is not an integer. */
  datatype IdCheck = WellFormed(suffix: string) | BadFormat | BadSuffix

  function CheckId(id: string): IdCheck {
    if Find(id, ':') == -1 then BadFormat
    else
      var parts := Split(id, ':');
      if |parts[1]| == 0 || parts[0] != "MGI" then BadFormat
      else if IsPyInt(parts[1]) then WellFormed(parts[1])
      else BadSuffix
  }

  /** Splitting an ID that starts with `MGI:` gives `MGI` and the pieces of
      the rest. */
  lemma {:induction false} SplitMgiPrefix(id: string)
    requires StartsWith(id, "MGI:")
    ensures Split(id, ':') == ["MGI"] + Split(id[4..], ':')
  {
    assert id == "MGI" + [':'] + id[4..];
    SplitCons("MGI", id[4..], ':');
  }

  /** An ID that has a colon but does not start with `MGI:` has a first piece
      other than `MGI`. */
  lemma {:induction false} SplitOtherPrefix(id: string)
    requires ':' in id && !StartsWith(id, "MGI:")
    ensures Split(id, ':')[0] != "MGI"
  {
    var k := Find(id, ':');
    SplitFirst(id, ':');
  }

  /** An ID is accepted exactly when it starts with `MGI:` (upper case) and the
      text from there to the next colon or the end is a non-empty integer;
      that text is what is staged. */
  lemma {:induction false} CheckIdSpec(id: string)
    ensures CheckId(id).WellFormed? <==>
      StartsWith(id, "MGI:") && IsPyInt(Split(id[4..], ':')[0])
    ensures CheckId(id).WellFormed? ==>
      CheckId(id).suffix == Split(id[4..], ':')[0] &&
      StartsWith(id[4..], CheckId(id).suffix) && ':' !in CheckId(id).suffix
  {
    if StartsWith(id, "MGI:") {
      assert id[3] == ':';
      SplitMgiPrefix(id);
      SplitFirstPiece(id[4..], ':');
      var suffix := Split(id[4..], ':')[0];
      assert |suffix| == 0 ==> !IsPyInt(suffix);
    } else if ':' in id {
      SplitOtherPrefix(id);
    }
  }

  /** A run of decimal digits is an integer literal `int()` accepts. */
  lemma {:induction false} DigitsArePyInt(digits: string)
    requires |digits| > 0 && forall i :: 0 <= i < |digits| ==> IsDigit(digits[i])
    ensures IsPyInt(digits)
  {
    assert TrimLeft(digits) == digits;
    assert TrimRight(digits) == digits;
  }

  /** `MGI:` and a colon-free suffix split into `MGI` and the suffix. */
  lemma {:induction false} SplitMgiSuffix(suffix: string)
    requires ':' !in suffix
    ensures Split("MGI:" + suffix, ':') == ["MGI", suffix]
  {
    var id := "MGI:" + suffix;
    assert StartsWith(id, "MGI:") && id[4..] == suffix;
    SplitMgiPrefix(id);
    SplitPlain(suffix, ':');
  }

  /** An ID whose pieces are `MGI` and a non-empty suffix is judged on the
      suffix alone. */
  lemma {:induction false} CheckIdOfPieces(id: string, suffix: string)
    requires Split(id, ':') == ["MGI", suffix] && |suffix| > 0
    ensures CheckId(id) == if IsPyInt(suffix) then WellFormed(suffix) else BadSuffix
  {
  }

  /** `MGI:` followed by plain decimal digits is accepted, with the digits as
      its staged number. */
  lemma {:induction false} CanonicalIdAccepted(digits: string)
    requires |digits| > 0 && forall i :: 0 <= i < |digits| ==> IsDigit(digits[i])
    ensures CheckId("MGI:" + digits) == WellFormed(digits)
  {
    assert ':' !in digits by {
      forall i | 0 <= i < |digits| ensures digits[i] != ':' {
        assert IsDigit(digits[i]);
      }
    }
    SplitMgiSuffix(digits);
    DigitsArePyInt(digits);
    CheckIdOfPieces("MGI:" + digits, digits);
  }

  /** The roles the bad-ID table records. */
  datatype Role = Organizer | Participant

  function RoleName(r: Role): string {
    match r
    case Organizer => "Organizer"
    case Participant => "Participant"
  }

  /** The label recorded for a rejected ID in column `position`: a participant
      whose shape is wrong is labelled `Participant`, but one whose suffix is
      not an integer is labelled `Organizer`, as is every rejected organizer. */
  function BadIdRole(position: Role, c: IdCheck): Role
    requires !c.WellFormed?
  {
    if position == Participant && c.BadFormat? then Participant else Organizer
  }

  /** The number staged for an ID: its suffix text, or `0` when rejected. */
  function StagedNumber(c: IdCheck): string
  {
    if c.WellFormed? then c.suffix else "0"
  }

  /** The number staged for any ID is one `int()` accepts: the integer text
      that follows `MGI:` in an accepted ID, and `0` otherwise. */
  lemma StagedNumberIsInt(id: string)
    ensures IsPyInt(StagedNumber(CheckId(id)))
    ensures CheckId(id).WellFormed? ==>
      StartsWith(id, "MGI:") && StartsWith(id[4..], StagedNumber(CheckId(id)))
    ensures !CheckId(id).WellFormed? ==> StagedNumber(CheckId(id)) == "0"
  {
    CheckIdSpec(id);
    if !CheckId(id).WellFormed? {
      DigitsArePyInt("0");
    }
  }
}
