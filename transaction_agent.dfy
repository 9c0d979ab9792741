/** The chat agent that turns a model reply into a transfer
    (`src/lib/agents/TransactionAgent.ts`): it pulls the first `{…}` block
    out of the reply, picks the `send_eth` or the `fund_account` tool, lets
    the tool resolve the recipient and clean the amount, and formats the
    text it shows. The language model, `JSON.parse`, the signer and the
    registry are oracles. */
module ChatAgent {
  import opened Common
  import Contracts

  // ---------------------------------------------------------------------
  // Subsequences: what deleting characters leaves
  // ---------------------------------------------------------------------

  /** `r` is `s` with some characters left out and the rest kept in order. */
  predicate IsSubsequence(r: string, s: string)
    decreases |s|
  {
    if |r| == 0 then true
    else if |s| == 0 then false
    else (r[0] == s[0] && IsSubsequence(r[1..], s[1..])) || IsSubsequence(r, s[1..])
  }

  lemma {:induction false} SubsequenceDrop(r: string, s: string, k: nat)
    requires k <= |s| && IsSubsequence(r, s[k..])
    ensures IsSubsequence(r, s)
  {
    if k > 0 && |r| > 0 {
      assert s[k - 1..][1..] == s[k..];
      SubsequenceDrop(r, s, k - 1);
    }
  }

  lemma {:induction false} SubsequencePrefix(s: string, n: nat)
    requires n <= |s|
    ensures IsSubsequence(s[..n], s)
  {
    if n > 0 {
      assert s[..n][1..] == s[1..][..n - 1];
      SubsequencePrefix(s[1..], n - 1);
    }
  }

  /** A slice is a subsequence. */
  lemma SubsequenceSlice(s: string, a: nat, b: nat)
    requires a <= b <= |s|
    ensures IsSubsequence(s[a..b], s)
  {
    SubsequencePrefix(s[a..], b - a);
    assert s[a..][..b - a] == s[a..b];
    SubsequenceDrop(s[a..b], s, a);
  }

  lemma {:induction false} SubsequenceTrans(a: string, b: string, c: string)
    requires IsSubsequence(a, b) && IsSubsequence(b, c)
    ensures IsSubsequence(a, c)
    decreases |c|
  {
    if |a| > 0 {
      if IsSubsequence(b, c[1..]) {
        SubsequenceTrans(a, b, c[1..]);
      } else if a[0] == b[0] && IsSubsequence(a[1..], b[1..]) {
        SubsequenceTrans(a[1..], b[1..], c[1..]);
      } else {
        SubsequenceTrans(a, b[1..], c[1..]);
      }
    }
  }

  // ---------------------------------------------------------------------
  // Amount text
  // ---------------------------------------------------------------------

  predicate IsDigit(c: char) {
    '0' <= c <= '9'
  }

  /** What `/[^\d.]/g` leaves in place: an ASCII digit or a dot. */
  predicate AmountChar(c: char) {
    IsDigit(c) || c == '.'
  }

  /** `amount.replace(/[^\d.]/g, '')`: the amount's digits and dots, in order. */
  function SanitizeAmount(s: string): (clean: string)
    ensures |clean| <= |s|
    ensures forall i :: 0 <= i < |clean| ==> AmountChar(clean[i])
    ensures (forall i :: 0 <= i < |s| ==> AmountChar(s[i])) ==> clean == s
    ensures |s| == 1 && !AmountChar(s[0]) ==> clean == ""
    ensures IsSubsequence(clean, s)
  {
    if |s| == 0 then ""
    else
      var rest := SanitizeAmount(s[1..]);
      if AmountChar(s[0]) then
        assert ([s[0]] + rest)[1..] == rest;
        [s[0]] + rest
      else rest
  }

  /** Sanitising an amount twice is sanitising it once. */
  lemma SanitizeAmountIdempotent(s: string)
    ensures SanitizeAmount(SanitizeAmount(s)) == SanitizeAmount(s)
  {
  }

  /** Sanitising works piece by piece: the kept characters of a text are
      the kept characters of its first part followed by those of the rest,
      so nothing is reordered. */
  lemma {:induction false} SanitizeAmountConcat(a: string, b: string)
    ensures SanitizeAmount(a + b) == SanitizeAmount(a) + SanitizeAmount(b)
  {
    if |a| > 0 {
      assert (a + b)[1..] == a[1..] + b;
      SanitizeAmountConcat(a[1..], b);
    } else {
      assert a + b == b;
    }
  }

  /** The amount the model put in its JSON: a number (held as the text
      `toString()` gives it), a string, or any other JSON value. */
  datatype Amount = NumberAmount(text: string) | StringAmount(raw: string) | OtherAmount

  const InvalidAmountFormat: string := "Invalid amount format"

  /** The amount text both tools hand on. */
  function FormatAmount(amount: Amount): (r: Result<string>)
    ensures r.Failure? <==> amount.OtherAmount?
    ensures r.Failure? ==> r.error == InvalidAmountFormat
    ensures amount.StringAmount? ==> r == Success(SanitizeAmount(amount.raw))
    ensures amount.StringAmount? ==> forall i :: 0 <= i < |r.value| ==> AmountChar(r.value[i])
    ensures amount.NumberAmount? ==> r.value == amount.text
  {
    match amount
    case NumberAmount(text) => Success(text)
    case StringAmount(raw) => Success(SanitizeAmount(raw))
    case OtherAmount => Failure(InvalidAmountFormat)
  }

  /** The longest run of digits at the start of `s`. */
  function LeadingDigits(s: string): (d: string)
    ensures |d| <= |s| && d == s[..|d|]
    ensures forall i :: 0 <= i < |d| ==> IsDigit(d[i])
    ensures |d| < |s| ==> !IsDigit(s[|d|])
  {
    if |s| > 0 && IsDigit(s[0]) then [s[0]] + LeadingDigits(s[1..]) else ""
  }

  /** The digits `parseFloat` reads from a decimal literal at the start of
      `s` (integer part, then the fraction after one dot), the dot left out. */
  function Mantissa(s: string): (m: string)
    ensures forall i :: 0 <= i < |m| ==> IsDigit(m[i])
    ensures var w := |LeadingDigits(s)|;
      && w <= |m| && m[..w] == s[..w]
      && (w < |s| && s[w] == '.' ==> m[w..] == LeadingDigits(s[w + 1..]))
      && (!(w < |s| && s[w] == '.') ==> |m| == w)
  {
    var whole := LeadingDigits(s);
    if |whole| < |s| && s[|whole|] == '.' then whole + LeadingDigits(s[|whole| + 1..]) else whole
  }

  /** `parseFloat(text)` is a number greater than zero: `Infinity`, or a
      decimal literal with a non-zero digit before any exponent. A leading
      minus sign makes it negative, zero or NaN, and a literal with no digit
      is NaN. */
  predicate ParsesPositive(text: string) {
    if |text| > 0 && text[0] == '-' then false
    else
      var unsigned := if |text| > 0 && text[0] == '+' then text[1..] else text;
      StartsWith(unsigned, "Infinity")
      || exists i :: 0 <= i < |Mantissa(unsigned)| && '1' <= Mantissa(unsigned)[i] <= '9'
  }

  // ---------------------------------------------------------------------
  // Extracting the JSON block of a reply
  // ---------------------------------------------------------------------

  /** The first position at or after `from` that holds `c`. */
  function FindChar(s: string, c: char, from: nat): (k: Option<nat>)
    requires from <= |s|
    ensures k.Some? ==> from <= k.value < |s| && s[k.value] == c
    ensures k.Some? ==> forall j :: from <= j < k.value ==> s[j] != c
    ensures k.None? ==> forall j :: from <= j < |s| ==> s[j] != c
    decreases |s| - from
  {
    if from == |s| then None
    else if s[from] == c then Some(from)
    else FindChar(s, c, from + 1)
  }

  /** `/\{[^}]+\}/` matches `s[i..j + 1]`: a `{`, at least one character
      that is not `}`, and the first `}` after them. */
  predicate BlockAt(s: string, i: nat, j: nat) {
    i + 1 < j < |s| && s[i] == '{' && s[j] == '}' && forall k :: i < k < j ==> s[k] != '}'
  }

  /** The leftmost match at or after `from`, as its first and last index. */
  function BlockFrom(s: string, from: nat): (found: Option<(nat, nat)>)
    requires from <= |s|
    ensures found.Some? ==> from <= found.value.0 && BlockAt(s, found.value.0, found.value.1)
    ensures found.Some? ==> forall i, j :: from <= i < found.value.0 ==> !BlockAt(s, i, j)
    ensures found.None? ==> forall i, j :: from <= i ==> !BlockAt(s, i, j)
    decreases |s| - from
  {
    if from == |s| then None
    else if s[from] == '{' && FindChar(s, '}', from + 1).Some? && FindChar(s, '}', from + 1).value > from + 1 then
      Some((from, FindChar(s, '}', from + 1).value))
    else
      BlockFrom(s, from + 1)
  }

  /** `content.match(/\{[^}]+\}/)?.[0]`: the leftmost `{…}` block without an
      inner `}`. */
  function JsonBlock(content: string): (block: Option<string>)
    ensures block.Some? <==> exists i, j :: BlockAt(content, i, j)
    ensures block.Some? ==>
      && |block.value| >= 3
      && block.value[0] == '{' && block.value[|block.value| - 1] == '}'
      && forall k :: 0 <= k < |block.value| - 1 ==> block.value[k] != '}'
    ensures block.Some? ==>
      exists i: nat, j: nat :: BlockAt(content, i, j) && block.value == content[i..j + 1]
        && forall i': nat, j': nat :: i' < i ==> !BlockAt(content, i', j')
  {
    match BlockFrom(content, 0)
    case None => None
    case Some((i, j)) =>
      assert BlockAt(content, i, j);
      Some(content[i..j + 1])
  }

  /** The record the model's JSON describes. */
  datatype TxDetails = TxDetails(recipient: Option<string>, amount: Amount)

  /** `txDetails.recipient` is truthy. */
  predicate HasRecipient(details: TxDetails) {
    details.recipient.Some? && details.recipient.value != ""
  }

  /** `extractJsonFromResponse`: the parsed block, or null when there is no
      block or it does not parse. */
  function ExtractJsonFromResponse(content: string, parseJson: string -> Rpc<TxDetails>): (details: Option<TxDetails>)
    ensures details.Some? <==> JsonBlock(content).Some? && parseJson(JsonBlock(content).value).Answer?
    ensures details.Some? ==> details.value == parseJson(JsonBlock(content).value).value
  {
    match JsonBlock(content)
    case None => None
    case Some(block) =>
      match parseJson(block)
      case Answer(details) => Some(details)
      case Threw(_) => None
  }

  // ---------------------------------------------------------------------
  // Formatting a reply
  // ---------------------------------------------------------------------

  const Fence: string := "```"
  const ToolCodeFence: string := "```tool_code"

  /** `pat` occurs in `s` at position `i`. */
  predicate OccursAt(s: string, pat: string, i: int) {
    0 <= i && i + |pat| <= |s| && s[i..i + |pat|] == pat
  }

  /** `s.replace(/pat/g, '')` for a literal pattern: scanning left to right,
      every occurrence that does not overlap an earlier removed one is
      dropped. */
  function RemoveAll(s: string, pat: string): (r: string)
    requires |pat| > 0
    ensures |r| <= |s|
    ensures (forall i :: 0 <= i < |s| ==> !OccursAt(s, pat, i)) ==> r == s
    ensures IsSubsequence(r, s)
    ensures (|s| - |r|) % |pat| == 0
  {
    if |s| < |pat| then
      SubsequencePrefix(s, |s|);
      assert s[..|s|] == s;
      s
    else if s[..|pat|] == pat then
      assert OccursAt(s, pat, 0);
      var r := RemoveAll(s[|pat|..], pat);
      SubsequenceDrop(r, s, |pat|);
      MultipleStep(|s| - |r|, |pat|);
      r
    else
      assert forall i :: OccursAt(s[1..], pat, i) ==> OccursAt(s, pat, i + 1);
      var rest := RemoveAll(s[1..], pat);
      assert ([s[0]] + rest)[1..] == rest;
      [s[0]] + rest
  }

  /** Removing one more occurrence keeps the number of removed characters a
      multiple of the pattern's length. */
  lemma MultipleStep(x: int, p: int)
    requires p > 0 && (x - p) % p == 0
    ensures x % p == 0
  {
    var q := (x - p) / p;
    assert x == p * (q + 1) by {
      assert x - p == p * q;
    }
    var d := x / p;
    var m := x % p;
    assert p * (q + 1 - d) == m by {
      assert x == p * d + m;
    }
    MultipleBounds(p, q + 1 - d);
  }

  /** A non-zero multiple of `p` is at least `p` away from zero. */
  lemma MultipleBounds(p: int, k: int)
    requires p > 0
    ensures k >= 1 ==> p * k >= p
    ensures k <= -1 ==> p * k <= -p
  {
    if k >= 1 {
      assert p * k == p * (k - 1) + p;
    } else if k <= -1 {
      assert p * k == p * (k + 1) - p;
    }
  }

  /** Three back-ticks in a row start at `i`. */
  predicate FenceAt(s: string, i: int) {
    0 <= i && i + 3 <= |s| && s[i] == '`' && s[i + 1] == '`' && s[i + 2] == '`'
  }

  predicate NoFence(s: string) {
    forall i :: 0 <= i < |s| ==> !FenceAt(s, i)
  }

  lemma NoFenceCons(c: char, t: string)
    requires NoFence(t)
    requires !(c == '`' && FenceAt([c] + t, 0))
    ensures NoFence([c] + t)
  {
    forall i ensures !FenceAt([c] + t, i) {
      if i > 0 && FenceAt([c] + t, i) {
        assert FenceAt(t, i - 1);
      }
    }
  }

  /** A text that does not start with a back-tick keeps its first
      character in front when the fences are removed. */
  lemma RemoveFencesHead(s: string)
    requires |s| > 0 && s[0] != '`'
    ensures var r := RemoveAll(s, Fence); |r| > 0 && r[0] == s[0]
  {
  }

  /** After removing every "```" left to right, none is left: a back-tick
      just before a removed fence would have started the fence one place
      earlier. */
  lemma {:induction false} RemoveFencesLeavesNone(s: string)
    ensures NoFence(RemoveAll(s, Fence))
  {
    var r := RemoveAll(s, Fence);
    if |s| < 3 {
    } else if s[..3] == Fence {
      RemoveFencesLeavesNone(s[3..]);
    } else {
      var t := s[1..];
      assert r == [s[0]] + RemoveAll(t, Fence);
      RemoveFencesLeavesNone(t);
      if s[0] == '`' {
        if s[1] != '`' {
          RemoveFencesHead(t);
        } else {
          assert s[2] != '`' by { assert s[..3] == [s[0], s[1], s[2]]; }
          var u := s[2..];
          assert t[1..] == u;
          if |t| >= 3 {
            assert t[..3] != Fence by { assert t[..3][1] == s[2]; }
          }
          assert RemoveAll(t, Fence) == [t[0]] + RemoveAll(u, Fence);
          RemoveFencesHead(u);
        }
      }
      NoFenceCons(s[0], RemoveAll(t, Fence));
    }
  }

  /** The characters `String.prototype.trim` removes: white space and line
      terminators. */
  predicate IsWhitespace(c: char) {
    || c == '\t' || c == '\n' || c == '\U{000B}' || c == '\U{000C}' || c == '\r' || c == ' '
    || c == '\U{00A0}' || c == '\U{1680}' || ('\U{2000}' <= c <= '\U{200A}')
    || c == '\U{2028}' || c == '\U{2029}' || c == '\U{202F}' || c == '\U{205F}'
    || c == '\U{3000}' || c == '\U{FEFF}'
  }

  /** Neither end of `s` is white space. */
  predicate Trimmed(s: string) {
    |s| == 0 || (!IsWhitespace(s[0]) && !IsWhitespace(s[|s| - 1]))
  }

  function TrimStart(s: string): (r: string)
    ensures |r| <= |s| && r == s[|s| - |r|..]
    ensures |r| == 0 || !IsWhitespace(r[0])
    ensures forall k :: 0 <= k < |s| - |r| ==> IsWhitespace(s[k])
  {
    if |s| > 0 && IsWhitespace(s[0]) then TrimStart(s[1..]) else s
  }

  function TrimEnd(s: string): (r: string)
    ensures |r| <= |s| && r == s[..|r|]
    ensures |r| == 0 || !IsWhitespace(r[|r| - 1])
    ensures forall k :: |r| <= k < |s| ==> IsWhitespace(s[k])
  {
    if |s| > 0 && IsWhitespace(s[|s| - 1]) then TrimEnd(s[..|s| - 1]) else s
  }

  /** `s.trim()`: the text between the leading and the trailing white space. */
  function Trim(s: string): (r: string)
    ensures Trimmed(r)
    ensures Trimmed(s) ==> r == s
    ensures exists a, b :: TrimmedSlice(s, r, a, b)
  {
    var front := TrimStart(s);
    var r := TrimEnd(front);
    assert |r| > 0 ==> r[0] == front[0];
    TrimEndsAreWhitespace(s, front, r);
    r
  }

  /** `r` is `s[a..b]` and everything of `s` outside it is white space. */
  predicate TrimmedSlice(s: string, r: string, a: int, b: int) {
    && 0 <= a <= b <= |s| && r == s[a..b]
    && (forall k :: 0 <= k < a ==> IsWhitespace(s[k]))
    && (forall k :: b <= k < |s| ==> IsWhitespace(s[k]))
  }

  /** What `TrimStart` and then `TrimEnd` guarantee, put together: the
      result is a slice of `s` with only white space outside it. */
  lemma TrimEndsAreWhitespace(s: string, front: string, r: string)
    requires |front| <= |s| && front == s[|s| - |front|..]
    requires forall k :: 0 <= k < |s| - |front| ==> IsWhitespace(s[k])
    requires |r| <= |front| && r == front[..|r|]
    requires forall k :: |r| <= k < |front| ==> IsWhitespace(front[k])
    ensures TrimmedSlice(s, r, |s| - |front|, |s| - |front| + |r|)
  {
    var a := |s| - |front|;
    forall k | a + |r| <= k < |s| ensures IsWhitespace(s[k]) {
      assert s[k] == front[k - a];
    }
  }

  lemma NoFenceSlice(s: string, a: nat, b: nat)
    requires a <= b <= |s| && NoFence(s)
    ensures NoFence(s[a..b])
  {
    forall i | 0 <= i < b - a ensures !FenceAt(s[a..b], i) {
      if FenceAt(s[a..b], i) {
        assert FenceAt(s, a + i);
      }
    }
  }

  /** No white space is trimmed from the inside, so trimming a text without
      fences leaves none. */
  lemma NoFenceTrim(s: string)
    requires NoFence(s)
    ensures NoFence(Trim(s))
  {
    var front := TrimStart(s);
    NoFenceSlice(s, |s| - |front|, |s|);
    assert s[|s| - |front|..|s|] == front;
    NoFenceSlice(front, 0, |TrimEnd(front)|);
  }

  /** `formatResponse`: every "```tool_code" removed, then every "```",
      then the ends trimmed. */
  function FormatResponse(content: string): (shown: string)
    ensures NoFence(shown) && Trimmed(shown)
    ensures IsSubsequence(shown, content)
  {
    var untagged := RemoveAll(content, ToolCodeFence);
    var unfenced := RemoveAll(untagged, Fence);
    RemoveFencesLeavesNone(untagged);
    NoFenceTrim(unfenced);
    SubsequenceTrans(unfenced, untagged, content);
    TrimIsSlice(unfenced);
    SubsequenceTrans(Trim(unfenced), unfenced, content);
    Trim(unfenced)
  }

  lemma TrimIsSlice(s: string)
    ensures IsSubsequence(Trim(s), s)
  {
    var a, b :| TrimmedSlice(s, Trim(s), a, b);
    SubsequenceSlice(s, a, b);
  }

  /** A text without "```" has no "```tool_code" either. */
  lemma NoFenceNoToolCode(y: string)
    requires NoFence(y)
    ensures forall i :: 0 <= i < |y| ==> !OccursAt(y, ToolCodeFence, i)
  {
    forall i | 0 <= i < |y| ensures !OccursAt(y, ToolCodeFence, i) {
      assert !FenceAt(y, i);
    }
  }

  lemma NoFenceNoOccurrence(y: string)
    requires NoFence(y)
    ensures forall i :: 0 <= i < |y| ==> !OccursAt(y, Fence, i)
  {
    forall i | 0 <= i < |y| ensures !OccursAt(y, Fence, i) {
      assert !FenceAt(y, i);
    }
  }

  /** A text without "```" and without white space at its ends is shown
      as it is. */
  lemma FormatResponseFixpoint(s: string)
    requires NoFence(s) && Trimmed(s)
    ensures FormatResponse(s) == s
  {
    NoFenceNoToolCode(s);
    assert RemoveAll(s, ToolCodeFence) == s;
    NoFenceNoOccurrence(s);
    assert RemoveAll(s, Fence) == s;
  }

  /** A leading "```tool_code" tag is dropped, whatever follows it. */
  lemma FormatResponseDropsToolCode(s: string)
    ensures FormatResponse(ToolCodeFence + s) == FormatResponse(s)
  {
    var t := ToolCodeFence + s;
    assert t[..|ToolCodeFence|] == ToolCodeFence;
    assert t[|ToolCodeFence|..] == s;
  }

  /** A reply that is one "```tool_code" block around a fence-free text
      without white space at its ends is shown as that text. */
  lemma FormatResponseUnwrapsToolCode(s: string)
    requires NoFence(s) && Trimmed(s) && |s| > 0
    ensures FormatResponse(ToolCodeFence + "\n" + s + "\n" + Fence) == s
  {
    var y := "\n" + s + "\n" + Fence;
    assert ToolCodeFence + "\n" + s + "\n" + Fence == ToolCodeFence + y;
    FormatResponseDropsToolCode(y);
    NoToolCodeInBlock(s);
    assert RemoveAll(y, ToolCodeFence) == y;
    FencesInBlock(s);
    TrimNewlines(s);
  }

  /** Removing "```" from a fence-free text between a line break and a line
      break with a closing "```" leaves the text and both line breaks. */
  lemma FencesInBlock(s: string)
    requires NoFence(s)
    ensures RemoveAll("\n" + s + "\n" + Fence, Fence) == "\n" + s + "\n"
  {
    var y := "\n" + s + "\n" + Fence;
    FencesBeforeClosingFence(s);
    assert y[1..] == s + "\n" + Fence;
    assert y[..3] != Fence by { assert y[..3][0] == '\n'; }
    assert "\n" + (s + "\n") == "\n" + s + "\n";
  }

  /** Between a line break before and a line break and a closing "```"
      after, a fence-free text holds no "```tool_code". */
  lemma NoToolCodeInBlock(s: string)
    requires NoFence(s)
    ensures var y := "\n" + s + "\n" + Fence;
      forall i :: 0 <= i < |y| ==> !OccursAt(y, ToolCodeFence, i)
  {
    var y := "\n" + s + "\n" + Fence;
    forall i | 0 <= i < |y| ensures !OccursAt(y, ToolCodeFence, i) {
      if OccursAt(y, ToolCodeFence, i) {
        var w := y[i..i + |ToolCodeFence|];
        assert w[0] == y[i] && w[1] == y[i + 1] && w[2] == y[i + 2];
        assert w[0] == '`' && w[1] == '`' && w[2] == '`';
        assert i >= 1;
        assert FenceAt(s, i - 1);
      }
    }
  }

  /** Removing "```" from a fence-free text followed by a line break and a
      closing "```" drops exactly that closing fence. */
  lemma {:induction false} FencesBeforeClosingFence(t: string)
    requires NoFence(t)
    ensures RemoveAll(t + "\n" + Fence, Fence) == t + "\n"
  {
    var u := t + "\n" + Fence;
    assert u[..3] != Fence by {
      if |t| >= 3 {
        assert !FenceAt(t, 0);
        assert u[..3][0] == t[0] && u[..3][1] == t[1] && u[..3][2] == t[2];
      } else {
        assert u[..3][|t|] == '\n';
      }
    }
    if |t| == 0 {
      assert u[1..] == Fence;
      assert Fence[..3] == Fence && Fence[3..] == "";
    } else {
      assert u[1..] == t[1..] + "\n" + Fence;
      NoFenceSlice(t, 1, |t|);
      assert t[1..|t|] == t[1..];
      FencesBeforeClosingFence(t[1..]);
      assert [t[0]] + (t[1..] + "\n") == t + "\n";
    }
  }

  /** Trimming a text without white space at its ends, with a line break on
      either side, gives the text back. */
  lemma TrimNewlines(s: string)
    requires Trimmed(s) && |s| > 0
    ensures Trim("\n" + s + "\n") == s
  {
    var z := "\n" + s + "\n";
    assert z[1..] == s + "\n";
    assert TrimStart(z) == s + "\n";
    assert (s + "\n")[..|s|] == s;
    assert TrimEnd(s + "\n") == s;
  }

  /** Formatting an already formatted text changes nothing. */
  lemma FormatResponseIdempotent(content: string)
    ensures FormatResponse(FormatResponse(content)) == FormatResponse(content)
  {
    FormatResponseFixpoint(FormatResponse(content));
  }

  // ---------------------------------------------------------------------
  // The agent
  // ---------------------------------------------------------------------

  const ZeroAddress: string := "0x0000000000000000000000000000000000000000"
  const InvalidAddress: string := "Invalid Ethereum address"
  const NotPositive: string := "Miktar sıfırdan büyük olmalıdır"
  const SendFailedPrefix: string := "İşlem başarısız: "
  const FundFailedPrefix: string := "Fonlama başarısız: "
  const AgentFailedPrefix: string := "Agent hatası: "

  /** The error `resolveUsername` throws, naming the name as typed. */
  function UnknownUsername(username: string): string {
    "Kullanıcı adı '" + username + "' bulunamadı"
  }

  function SentMessage(recipient: string, amount: string): string {
    "✅ İşlem başarıyla gönderildi!\nAlıcı: " + recipient + "\nMiktar: " + amount + " ETH"
  }

  function FundedMessage(amount: string): string {
    "✅ Smart Account başarıyla fonlandı!\nGönderilen: " + amount + " ETH\nAlıcı Hesap: Smart Account"
  }

  /** The payment `sendSingleTransaction` is asked to make from the smart
      account: recipient address and amount text. */
  datatype Payment = Payment(to: string, amount: string)

  /** What a message led to: a plain chat reply, or a run of one of the two
      tools together with what that tool submitted. */
  datatype Action =
    | Chatted
    | SendEthRan(payment: Option<Payment>)
    | FundAccountRan(transfer: Option<Contracts.Transfer>)

  /** The agent and what its constructor fixes: the smart account, and the
      signer seen through the calls the tools make with it. */
  class TransactionAgent {
    const accountAddress: string
    /** `getSmartAccountRegistry(signer)`: the registry's address. */
    const registry: Rpc<string>
    /** `registry.resolveName(name)` on the registry at the given address. */
    const resolveName: (string, string) -> Rpc<string>
    /** `ethers.utils.isAddress`. */
    const isAddress: string -> bool
    /** `sendSingleTransaction(signer, accountAddress, to, amount)`. */
    const sendSingleTransaction: Payment -> Rpc<()>
    /** What `sendEthToAAWallet` sees of the signer. */
    const hasProvider: bool
    const signerAddress: Rpc<string>
    const balanceOf: string -> Rpc<nat>
    const submit: Contracts.Transfer -> Rpc<Contracts.Transaction>
    /** `ethers.utils.parseEther`, in wei. */
    const parseEther: string -> Rpc<int>

    constructor(
      accountAddress: string,
      registry: Rpc<string>,
      resolveName: (string, string) -> Rpc<string>,
      isAddress: string -> bool,
      sendSingleTransaction: Payment -> Rpc<()>,
      hasProvider: bool,
      signerAddress: Rpc<string>,
      balanceOf: string -> Rpc<nat>,
      submit: Contracts.Transfer -> Rpc<Contracts.Transaction>,
      parseEther: string -> Rpc<int>)
      ensures this.accountAddress == accountAddress && this.registry == registry
      ensures this.resolveName == resolveName && this.isAddress == isAddress
      ensures this.sendSingleTransaction == sendSingleTransaction
      ensures this.hasProvider == hasProvider && this.signerAddress == signerAddress
      ensures this.balanceOf == balanceOf && this.submit == submit && this.parseEther == parseEther
    {
      this.accountAddress := accountAddress;
      this.registry := registry;
      this.resolveName := resolveName;
      this.isAddress := isAddress;
      this.sendSingleTransaction := sendSingleTransaction;
      this.hasProvider := hasProvider;
      this.signerAddress := signerAddress;
      this.balanceOf := balanceOf;
      this.submit := submit;
      this.parseEther := parseEther;
    }

    /** `resolveUsername`: the address the registry holds for the suffixed
      name; an empty answer or the zero address means the name is unknown. */
    function ResolveUsername(username: string): (r: Result<string>)
      ensures r.Success? ==> r.value != "" && r.value != ZeroAddress
      ensures r.Success? <==>
        && registry.Answer?
        && resolveName(registry.value, Contracts.WithUnitsSuffix(username)).Answer?
        && resolveName(registry.value, Contracts.WithUnitsSuffix(username)).value !in {"", ZeroAddress}
      ensures r.Success? ==> r.value == resolveName(registry.value, Contracts.WithUnitsSuffix(username)).value
      ensures
        && registry.Answer?
        && resolveName(registry.value, Contracts.WithUnitsSuffix(username)).Answer?
        && !r.Success?
        ==> r == Failure(UnknownUsername(username))
    {
      match registry
      case Threw(m) => Failure(m)
      case Answer(at) =>
        match resolveName(at, Contracts.WithUnitsSuffix(username))
        case Threw(m) => Failure(m)
        case Answer(address) =>
          if address != "" && address != ZeroAddress then Success(address)
          else Failure(UnknownUsername(username))
    }

    /** The address a recipient stands for: a text without the `0x` prefix
        is a username, and one with it must be a valid address. */
    function RecipientAddress(recipient: string): (r: Result<string>)
      ensures !StartsWith(recipient, "0x") ==> r == ResolveUsername(recipient)
      ensures StartsWith(recipient, "0x") ==>
        r == if isAddress(recipient) then Success(recipient) else Failure(InvalidAddress)
      ensures r.Success? ==> (r.value != "" && r.value != ZeroAddress) || (StartsWith(recipient, "0x") && isAddress(recipient))
    {
      if !StartsWith(recipient, "0x") then ResolveUsername(recipient)
      else if isAddress(recipient) then Success(recipient)
      else Failure(InvalidAddress)
    }

    /** The payment `send_eth` asks for: the recipient's address and the
        formatted amount, when both are there. */
    function PaymentFor(recipient: string, amount: Amount): Option<Payment> {
      if RecipientAddress(recipient).Success? && FormatAmount(amount).Success?
      then Some(Payment(RecipientAddress(recipient).value, FormatAmount(amount).value))
      else None
    }

    /** The amount `fund_account` passes to `sendEthToAAWallet` goes through
        only when it formats and parses as positive. */
    predicate FundingAccepted(amount: Amount) {
      FormatAmount(amount).Success? && ParsesPositive(FormatAmount(amount).value)
    }

    /** What `sendEthToAAWallet` does with an accepted funding amount. */
    function FundingOutcome(amount: Amount): Contracts.SendOutcome
      requires FundingAccepted(amount)
    {
      Contracts.SendEthToAAWallet(accountAddress, hasProvider, parseEther(FormatAmount(amount).value),
        signerAddress, balanceOf, submit)
    }

    /** The `send_eth` tool: resolve the recipient, format the amount, and
        have the smart account pay; every error is re-thrown with the
        "transaction failed" prefix. */
    method SendEth(recipient: string, amount: Amount) returns (r: Result<string>, payment: Option<Payment>)
      ensures payment.Some? <==> RecipientAddress(recipient).Success? && FormatAmount(amount).Success?
      ensures payment.Some? ==> payment.value == Payment(RecipientAddress(recipient).value, FormatAmount(amount).value)
      ensures RecipientAddress(recipient).Failure? ==> r == Failure(SendFailedPrefix + RecipientAddress(recipient).error)
      ensures RecipientAddress(recipient).Success? && amount.OtherAmount? ==> r == Failure(SendFailedPrefix + InvalidAmountFormat)
      ensures r.Success? <==> payment.Some? && sendSingleTransaction(payment.value).Answer?
      ensures r.Success? ==> r.value == SentMessage(recipient, payment.value.amount)
      ensures r.Failure? ==> StartsWith(r.error, SendFailedPrefix)
    {
      payment := None;
      var resolvedAddress := recipient;
      if !StartsWith(recipient, "0x") {
        var resolved := ResolveUsername(recipient);
        if resolved.Failure? {
          return Failure(SendFailedPrefix + resolved.error), None;
        }
        resolvedAddress := resolved.value;
      } else if !isAddress(recipient) {
        return Failure(SendFailedPrefix + InvalidAddress), None;
      }
      var formatted := FormatAmount(amount);
      if formatted.Failure? {
        return Failure(SendFailedPrefix + formatted.error), None;
      }
      payment := Some(Payment(resolvedAddress, formatted.value));
      match sendSingleTransaction(payment.value)
      case Threw(m) =>
        r := Failure(SendFailedPrefix + m);
      case Answer(_) =>
        r := Success(SentMessage(recipient, formatted.value));
    }

    /** The `fund_account` tool: format the amount, insist that it parses
        as a positive number, and move that much from the signer's account
        to the smart account; every error is re-thrown with the "funding
        failed" prefix. */
    method FundAccount(amount: Amount) returns (r: Result<string>, transfer: Option<Contracts.Transfer>)
      ensures amount.OtherAmount? ==> r == Failure(FundFailedPrefix + InvalidAmountFormat) && transfer.None?
      ensures FormatAmount(amount).Success? && !ParsesPositive(FormatAmount(amount).value) ==>
        r == Failure(FundFailedPrefix + NotPositive) && transfer.None?
      ensures transfer.Some? ==>
        && FormatAmount(amount).Success? && ParsesPositive(FormatAmount(amount).value)
        && transfer.value.to == accountAddress
        && signerAddress.Answer? && balanceOf(signerAddress.value).Answer?
        && 0 < transfer.value.value <= balanceOf(signerAddress.value).value
      ensures r.Success? <==>
        && FormatAmount(amount).Success? && ParsesPositive(FormatAmount(amount).value)
        && Contracts.SendEthToAAWallet(accountAddress, hasProvider, parseEther(FormatAmount(amount).value),
             signerAddress, balanceOf, submit).result.Success?
      ensures transfer ==
        if FormatAmount(amount).Success? && ParsesPositive(FormatAmount(amount).value)
        then Contracts.SendEthToAAWallet(accountAddress, hasProvider, parseEther(FormatAmount(amount).value),
               signerAddress, balanceOf, submit).sent
        else None
      ensures r.Success? ==> r.value == FundedMessage(FormatAmount(amount).value)
      ensures r.Failure? ==> StartsWith(r.error, FundFailedPrefix)
    {
      var formatted := FormatAmount(amount);
      if formatted.Failure? {
        return Failure(FundFailedPrefix + formatted.error), None;
      }
      if !ParsesPositive(formatted.value) {
        return Failure(FundFailedPrefix + NotPositive), None;
      }
      var outcome := Contracts.SendEthToAAWallet(
        accountAddress, hasProvider, parseEther(formatted.value), signerAddress, balanceOf, submit);
      Contracts.SentOnlyWhenFunded(
        accountAddress, hasProvider, parseEther(formatted.value), signerAddress, balanceOf, submit);
      transfer := outcome.sent;
      match outcome.result
      case Failure(e) =>
        r := Failure(FundFailedPrefix + e);
      case Success(_) =>
        r := Success(FundedMessage(formatted.value));
    }

    /** The tool `processMessage` picks for a parsed block, run on it, its
        text formatted and its error prefixed with "agent error". */
    method RunTool(details: TxDetails) returns (r: Result<string>, action: Action)
      ensures action.SendEthRan? <==> HasRecipient(details)
      ensures action.FundAccountRan? <==> !HasRecipient(details)
      ensures action.SendEthRan? && r.Success? ==>
        && FormatAmount(details.amount).Success?
        && r.value == FormatResponse(SentMessage(details.recipient.value, FormatAmount(details.amount).value))
      ensures action.FundAccountRan? && r.Success? ==>
        && FormatAmount(details.amount).Success?
        && r.value == FormatResponse(FundedMessage(FormatAmount(details.amount).value))
      ensures action.SendEthRan? && action.payment.Some? ==>
        && RecipientAddress(details.recipient.value).Success?
        && action.payment.value.to == RecipientAddress(details.recipient.value).value
      ensures action.FundAccountRan? && action.transfer.Some? ==>
        && action.transfer.value.to == accountAddress
        && signerAddress.Answer? && balanceOf(signerAddress.value).Answer?
        && 0 < action.transfer.value.value <= balanceOf(signerAddress.value).value
      ensures action.SendEthRan? ==>
        && action.payment == PaymentFor(details.recipient.value, details.amount)
        && (r.Success? <==> action.payment.Some? && sendSingleTransaction(action.payment.value).Answer?)
        && (RecipientAddress(details.recipient.value).Failure? ==>
              r == Failure(AgentFailedPrefix + SendFailedPrefix + RecipientAddress(details.recipient.value).error))
      ensures action.FundAccountRan? ==>
        && action.transfer == (if FundingAccepted(details.amount) then FundingOutcome(details.amount).sent else None)
        && (r.Success? <==> FundingAccepted(details.amount) && FundingOutcome(details.amount).result.Success?)
        && (FormatAmount(details.amount).Success? && !FundingAccepted(details.amount) ==>
              r == Failure(AgentFailedPrefix + FundFailedPrefix + NotPositive))
      ensures r.Success? ==> NoFence(r.value) && Trimmed(r.value)
      ensures r.Failure? ==> StartsWith(r.error, AgentFailedPrefix)
    {
      var result;
      if HasRecipient(details) {
        var payment;
        result, payment := SendEth(details.recipient.value, details.amount);
        action := SendEthRan(payment);
      } else {
        var transfer;
        result, transfer := FundAccount(details.amount);
        action := FundAccountRan(transfer);
      }
      match result
      case Failure(e) =>
        r := Failure(AgentFailedPrefix + e);
      case Success(text) =>
        r := Success(FormatResponse(text));
    }

    /** `processMessage`: `content` is the model's reply to the message. A
        reply with a parsable `{…}` block runs `send_eth` when it names a
        recipient and `fund_account` otherwise, and the tool's text is
        shown; any other reply is shown as it is. Both are formatted, and
        every error is re-thrown with the "agent error" prefix. */
    method ProcessMessage(content: Rpc<string>, parseJson: string -> Rpc<TxDetails>)
      returns (r: Result<string>, action: Action)
      ensures content.Threw? ==> r == Failure(AgentFailedPrefix + content.message) && action == Chatted
      ensures content.Answer? ==>
        var details := ExtractJsonFromResponse(content.value, parseJson);
        && (action.Chatted? <==> details.None?)
        && (action.SendEthRan? <==> details.Some? && HasRecipient(details.value))
        && (action.FundAccountRan? <==> details.Some? && !HasRecipient(details.value))
      ensures action.Chatted? && content.Answer? ==> r == Success(FormatResponse(content.value))
      ensures action.SendEthRan? && r.Success? ==>
        var details := ExtractJsonFromResponse(content.value, parseJson).value;
        && FormatAmount(details.amount).Success?
        && r.value == FormatResponse(SentMessage(details.recipient.value, FormatAmount(details.amount).value))
      ensures action.FundAccountRan? && r.Success? ==>
        var details := ExtractJsonFromResponse(content.value, parseJson).value;
        && FormatAmount(details.amount).Success?
        && r.value == FormatResponse(FundedMessage(FormatAmount(details.amount).value))
      ensures action.SendEthRan? && action.payment.Some? ==>
        var details := ExtractJsonFromResponse(content.value, parseJson).value;
        && RecipientAddress(details.recipient.value).Success?
        && action.payment.value.to == RecipientAddress(details.recipient.value).value
      ensures action.FundAccountRan? && action.transfer.Some? ==>
        && action.transfer.value.to == accountAddress
        && signerAddress.Answer? && balanceOf(signerAddress.value).Answer?
        && 0 < action.transfer.value.value <= balanceOf(signerAddress.value).value
      ensures action.SendEthRan? ==>
        var details := ExtractJsonFromResponse(content.value, parseJson).value;
        && action.payment == PaymentFor(details.recipient.value, details.amount)
        && (r.Success? <==> action.payment.Some? && sendSingleTransaction(action.payment.value).Answer?)
      ensures action.FundAccountRan? ==>
        var details := ExtractJsonFromResponse(content.value, parseJson).value;
        && action.transfer == (if FundingAccepted(details.amount) then FundingOutcome(details.amount).sent else None)
        && (r.Success? <==> FundingAccepted(details.amount) && FundingOutcome(details.amount).result.Success?)
      ensures r.Success? ==> NoFence(r.value) && Trimmed(r.value)
      ensures r.Failure? ==> StartsWith(r.error, AgentFailedPrefix)
    {
      if content.Threw? {
        return Failure(AgentFailedPrefix + content.message), Chatted;
      }
      var txDetails := ExtractJsonFromResponse(content.value, parseJson);
      if txDetails.None? {
        return Success(FormatResponse(content.value)), Chatted;
      }
      r, action := RunTool(txDetails.value);
    }
  }
}
