/**
 * The Jakarta Bean Validation constraints the DTOs use, as Hibernate
 * Validator checks them. Every constraint except @NotNull and @NotBlank
 * accepts a null value. Lengths count the characters of the string.
 */
module Constraints {
  import opened Wrappers

  /** @NotBlank: not null, and not empty after String.trim, which drops every character up to U+0020. */
  predicate NotBlank(s: Option<string>) {
    s.Some? && exists i :: 0 <= i < |s.value| && s.value[i] > ' '
  }

  /** @Size(max = n). */
  predicate SizeAtMost(s: Option<string>, n: nat) {
    s.None? || |s.value| <= n
  }

  /** @Size(min = lo, max = hi). */
  predicate SizeBetween(s: Option<string>, lo: nat, hi: nat) {
    s.None? || lo <= |s.value| <= hi
  }

  /** @DecimalMin(value = min), inclusive. */
  predicate AtLeast(x: Option<real>, min: real) {
    x.None? || x.value >= min
  }

  /** @DecimalMin(value = min, inclusive = false). */
  predicate Above(x: Option<real>, min: real) {
    x.None? || x.value > min
  }

  /** @DecimalMax(value = max), inclusive. */
  predicate AtMost(x: Option<real>, max: real) {
    x.None? || x.value <= max
  }

  /** @Min(value = min) on an Integer. */
  predicate IntAtLeast(x: Option<int>, min: int) {
    x.None? || x.value >= min
  }

  /** @Max(value = max) on an Integer. */
  predicate IntAtMost(x: Option<int>, max: int) {
    x.None? || x.value <= max
  }

  /** Only whitespace and control characters is blank; one visible character is enough. */
  lemma BlankStrings()
    ensures !NotBlank(None) && !NotBlank(Some("")) && !NotBlank(Some("  \t\n"))
    ensures NotBlank(Some(" a ")) && NotBlank(Some("USD"))
  {
    assert " a "[1] > ' ';
    assert "USD"[0] > ' ';
  }

  /** A null value satisfies every constraint except @NotNull and @NotBlank. */
  lemma NullPassesSizeAndRange(n: nat, lo: nat, hi: nat, bound: real, ibound: int)
    ensures SizeAtMost(None, n) && SizeBetween(None, lo, hi)
    ensures AtLeast(None, bound) && Above(None, bound) && AtMost(None, bound)
    ensures IntAtLeast(None, ibound) && IntAtMost(None, ibound)
  {
  }
}
