/** The `accountType` pipe: classifies any account type tag ("Saving",
    "SavingBankAccountDTO", "CURRENT", ...) as SAVING, CURRENT or a fallback,
    either as a display label or as a normalised upper-case tag. */
module AccountTypePipe {
  import opened Wrappers
  import opened Strings

  /** The pipe's `mode` argument: 'label' or 'norm'. */
  datatype Mode = Label | Norm

  /** `transform(type, mode)`. `type` is `None` for null/undefined and otherwise
      the value already converted by `String(type)`; `mode` defaults to 'norm'.
      A label is one of the three canonical labels or the tag as given; a
      normalised tag is one of the three canonical tags or the tag upper-cased. */
  function Transform(tag: Option<string>, mode: Mode := Norm): (r: string)
    ensures mode == Label ==> r in {"Saving", "Current", "Unknown"} || (tag.Some? && r == tag.value)
    ensures mode == Norm ==> r in {"SAVING", "CURRENT", "UNKNOWN"} || (tag.Some? && r == ToUpper(tag.value))
  {
    if tag.None? then
      (if mode == Label then "Unknown" else "UNKNOWN")
    else
      var t := ToUpper(tag.value);
      if Contains(t, "SAV") || Contains(t, "SAVING") then
        (if mode == Label then "Saving" else "SAVING")
      else if Contains(t, "CURRENT") then
        (if mode == Label then "Current" else "CURRENT")
      else
        (if mode == Label then tag.value else t)
  }

  /** A 'norm' result is already upper case. */
  lemma NormIsUpper(tag: Option<string>)
    ensures ToUpper(Transform(tag)) == Transform(tag)
  {
    if tag.None? {
      NoLowerIsUpper("UNKNOWN");
    } else {
      var t := ToUpper(tag.value);
      if Contains(t, "SAV") || Contains(t, "SAVING") {
        NoLowerIsUpper("SAVING");
      } else if Contains(t, "CURRENT") {
        NoLowerIsUpper("CURRENT");
      } else {
        ToUpperIdempotent(tag.value);
      }
    }
  }

  /** The second test of the source's first condition adds nothing: every string
      containing "SAVING" contains "SAV". */
  lemma SavingContainsSav(t: string)
    requires Contains(t, "SAVING")
    ensures Contains(t, "SAV")
  {
    var i :| 0 <= i <= |t| - 6 && OccursAt(t, "SAVING", i);
    assert t[i..i + 3] == t[i..i + 6][..3];
    assert OccursAt(t, "SAV", i);
  }

  /** null or undefined is "Unknown" / "UNKNOWN", and 'norm' is the default mode. */
  lemma MissingIsUnknown(mode: Mode)
    ensures Transform(None, Label) == "Unknown"
    ensures Transform(None) == Transform(None, Norm) == "UNKNOWN"
  {
  }

  /** Any tag whose upper-case form contains "SAV" is a saving account, even if it
      also contains "CURRENT". */
  lemma SavWins(tag: string, mode: Mode)
    requires Contains(ToUpper(tag), "SAV")
    ensures Transform(Some(tag), mode) == if mode == Label then "Saving" else "SAVING"
  {
  }

  /** A tag with "CURRENT" and without "SAV" (in upper case) is a current account. */
  lemma CurrentWithoutSav(tag: string, mode: Mode)
    requires !Contains(ToUpper(tag), "SAV") && Contains(ToUpper(tag), "CURRENT")
    ensures Transform(Some(tag), mode) == if mode == Label then "Current" else "CURRENT"
  {
    if Contains(ToUpper(tag), "SAVING") { SavingContainsSav(ToUpper(tag)); }
  }

  /** Any other tag is returned unchanged as a label and upper-cased as a norm. */
  lemma OtherTagsPassThrough(tag: string)
    requires !Contains(ToUpper(tag), "SAV") && !Contains(ToUpper(tag), "CURRENT")
    ensures Transform(Some(tag), Label) == tag
    ensures Transform(Some(tag), Norm) == ToUpper(tag)
  {
    if Contains(ToUpper(tag), "SAVING") { SavingContainsSav(ToUpper(tag)); }
  }

  /** The classification is case-insensitive: tags with the same upper-case form
      get the same norm, and the same label unless both fall through. */
  lemma CaseInsensitive(a: string, b: string)
    requires ToUpper(a) == ToUpper(b)
    ensures Transform(Some(a), Norm) == Transform(Some(b), Norm)
    ensures Transform(Some(a), Label) != a || Transform(Some(b), Label) != b ==>
              Transform(Some(a), Label) == Transform(Some(b), Label)
  {
    var t := ToUpper(a);
    if Contains(t, "SAV") || Contains(t, "SAVING") {
      assert Transform(Some(a), Label) == Transform(Some(b), Label) == "Saving";
    } else if Contains(t, "CURRENT") {
      assert Transform(Some(a), Label) == Transform(Some(b), Label) == "Current";
    }
  }

  /** No fixed tag the pipe produces in 'norm' mode contains "SAV" or "CURRENT"
      except the one it stands for. */
  lemma FixedTags()
    ensures Contains("SAVING", "SAV")
    ensures !Contains("CURRENT", "SAV") && !Contains("CURRENT", "SAVING") && Contains("CURRENT", "CURRENT")
    ensures !Contains("UNKNOWN", "SAV") && !Contains("UNKNOWN", "SAVING") && !Contains("UNKNOWN", "CURRENT")
  {
    assert OccursAt("SAVING", "SAV", 0);
    assert OccursAt("CURRENT", "CURRENT", 0);
    AbsentFirstChar("CURRENT", "SAV");
    AbsentFirstChar("CURRENT", "SAVING");
    AbsentFirstChar("UNKNOWN", "SAV");
    AbsentFirstChar("UNKNOWN", "SAVING");
    AbsentFirstChar("UNKNOWN", "CURRENT");
  }

  /** 'norm' mode is idempotent: normalising a normalised tag changes nothing. */
  lemma NormIdempotent(tag: Option<string>)
    ensures Transform(Some(Transform(tag))) == Transform(tag)
  {
    FixedTags();
    var n := Transform(tag);
    NormIsUpper(tag);
    if tag.Some? {
      var t := ToUpper(tag.value);
      if !(Contains(t, "SAV") || Contains(t, "SAVING")) && !Contains(t, "CURRENT") {
        assert n == t;
      }
    }
  }
}
