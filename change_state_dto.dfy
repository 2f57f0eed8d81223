/** The validation attributes of `ChangeStateDto.OrderStatus`: `[Required]`
    and the anchored, case-insensitive pattern
    `^(?i)(pendiente|en\s?procesamiento|enviado|entregado)$`. The tracking
    number carries no attribute. */
module ChangeStateRules {
  import opened Common
  import opened Text

  const Procesamiento := "procesamiento"

  /** The pattern matched against the whole string: each letter compared
      without regard to ASCII case, `\s` being one white-space character. */
  predicate MatchesStatusPattern(s: string) {
    var l := Lower(s);
    || l == "pendiente" || l == "enviado" || l == "entregado"
    || l == "en" + Procesamiento
    || (|s| == 16 && l[..2] == "en" && IsWhiteSpace(s[2]) && l[3..] == Procesamiento)
  }

  /** `[Required]` on a string rejects null, the empty string and white space
      only; the pattern then has to match. */
  predicate IsValidOrderStatus(s: Option<string>) {
    !IsNullOrWhiteSpace(s) && MatchesStatusPattern(s.value)
  }

  /** A missing status is refused whatever the pattern says. */
  lemma StatusIsRequired(s: Option<string>)
    requires IsNullOrWhiteSpace(s)
    ensures !IsValidOrderStatus(s)
  {
  }

  /** Every ASCII-case variant of the four names is admitted, and so is
      "en procesamiento" with its single space. */
  lemma StatusPatternAcceptsAnyCase(s: string)
    requires Lower(s) in {"pendiente", "enviado", "entregado", "enprocesamiento", "en procesamiento"}
    ensures MatchesStatusPattern(s)
  {
    if Lower(s) == "en procesamiento" {
      assert LowerChar(s[2]) == ' ';
      assert Lower(s)[3..] == Procesamiento;
    }
  }

  /** The display spelling of the processing status is admitted. */
  lemma StatusPatternAcceptsDisplayName()
    ensures MatchesStatusPattern("En Procesamiento")
  {
    assert Lower("En Procesamiento") == "en procesamiento";
    StatusPatternAcceptsAnyCase("En Procesamiento");
  }

  /** A tab between the two words is admitted as well: `\s` is any white space. */
  lemma StatusPatternAcceptsTab()
    ensures MatchesStatusPattern("en\tprocesamiento")
  {
    var s := "en\tprocesamiento";
    assert Lower(s)[..2] == "en";
    assert Lower(s)[3..] == Procesamiento;
  }

  /** Without white space the pattern is the four names, in any ASCII case. */
  lemma UnspacedStatusPattern(s: string)
    requires forall i :: 0 <= i < |s| ==> !IsWhiteSpace(s[i])
    ensures MatchesStatusPattern(s) <==> Lower(s) in ["pendiente", "enviado", "entregado", "enprocesamiento"]
  {
    assert "en" + Procesamiento == "enprocesamiento";
    if |s| == 16 {
      assert !IsWhiteSpace(s[2]);
    }
  }

  /** The match is anchored: a status with white space at either end never
      matches, since every admitted spelling starts with a letter and ends
      with one, and lowering leaves white space as it is. */
  lemma PaddedStatusNeverMatches(s: string)
    requires |s| > 0 && (IsWhiteSpace(s[0]) || IsWhiteSpace(s[|s| - 1]))
    ensures !MatchesStatusPattern(s)
  {
    var l := Lower(s);
    var c := if IsWhiteSpace(s[0]) then l[0] else l[|s| - 1];
    assert IsWhiteSpace(c);
  }

  /** Spellings the pattern refuses: a cancelled status, two spaces in the
      middle, and surrounding white space. */
  lemma StatusPatternRejects()
    ensures !MatchesStatusPattern("Cancelado")
    ensures !MatchesStatusPattern("en  procesamiento")
    ensures !MatchesStatusPattern(" Enviado") && !MatchesStatusPattern("Enviado ")
  {
    assert Lower("Cancelado")[0] == 'c';
    assert Lower("en  procesamiento")[3] == ' ';
    PaddedStatusNeverMatches(" Enviado");
    PaddedStatusNeverMatches("Enviado ");
  }
}
