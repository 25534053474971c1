/** The display helpers `fmt` and `truncate` of app/billing/page.tsx. */
module BillingPage {

  import opened Wrappers

  const Ellipsis: char := '…'

  /** `s && s.length > n ? s.slice(0, n) + '…' : s`, with `n` defaulting to 10. */
  function Truncate(s: string, n: nat := 10): (r: string)
    ensures |s| <= n ==> r == s
    ensures |s| > n ==> r == s[..n] + [Ellipsis] && |r| == n + 1
    ensures |r| <= n + 1 && (r == s || r[..n] == s[..n])
  {
    if s != "" && |s| > n then s[..n] + [Ellipsis] else s
  }

  /** Truncation keeps a prefix: it never invents characters other than the final ellipsis. */
  lemma TruncateKeepsPrefix(s: string, n: nat)
    ensures s == "" ==> Truncate(s, n) == ""
    ensures |Truncate(s, n)| <= |s| + 1
    ensures Truncate(Truncate(s, n), n + 1) == Truncate(s, n)
  {
  }

  /** The default width is 10. */
  lemma TruncateDefaultWidth(s: string)
    requires |s| > 10
    ensures Truncate(s) == s[..10] + [Ellipsis]
  {
  }

  /** The value `fmt` renders: a dash, or the date string handed to `toLocaleString`. */
  datatype ShownDateTime = Dash | Localized(source: string)

  /** `fmt`: `null`, `undefined` and the empty string show as a dash. */
  function Fmt(d: Option<string>): (r: ShownDateTime)
    ensures r == Dash <==> !Truthy(d)
    ensures r.Localized? ==> d == Some(r.source)
  {
    if Truthy(d) then Localized(d.value) else Dash
  }
}
