/** Splitting one outbound text into rendered segments
    (internal/im/im_text_send.go:89-109, 237-375). */
module TextSend {
  import Utf8

  const MAX_TEXT_BYTES: nat := 65536
  const MAX_TEXT_SEGMENTS: nat := 32

  datatype Error = InvalidUtf8 | CharacterTooWide | BadOptions
  datatype Result<T> = Ok(value: T) | Err(error: Error)

  /** strings.LastIndexByte */
  function LastIndexByte(s: string, c: char): (end: int)
    ensures -1 <= end < |s|
    ensures end >= 0 ==> s[end] == c
    ensures forall i :: end < i < |s| ==> s[i] != c
  {
    if s == "" then -1
    else if s[|s| - 1] == c then |s| - 1
    else LastIndexByte(s[..|s| - 1], c)
  }

  function Concat(parts: seq<string>): string {
    if parts == [] then "" else parts[0] + Concat(parts[1..])
  }

  lemma {:induction false} ConcatAppend(parts: seq<string>, more: seq<string>)
    ensures Concat(parts + more) == Concat(parts) + Concat(more)
  {
    if parts == [] {
      assert parts + more == more;
    } else {
      ConcatAppend(parts[1..], more);
      assert (parts + more)[1..] == parts[1..] + more;
    }
  }

  /** The longest rune-boundary prefix of a valid text within `limit` bytes. */
  ghost function Trimmed(text: string, limit: nat): (r: string)
    requires Utf8.Valid(text)
    ensures Utf8.Valid(r) && r <= text && |r| <= limit
    ensures forall j: nat :: |r| < j <= limit && j <= |text| ==> !Utf8.Boundary(text, j)
  {
    if |text| <= limit then text
    else
      Utf8.CutPoints(text, limit);
      if Utf8.Boundary(text, limit) then text[..limit] else
      Utf8.CutPoints(text, 0);
      assert limit > 0;
      Trimmed(text, limit - 1)
  }

  /** trimIMTextBytes */
  method TrimTextBytes(text: string, limit: nat) returns (r: string)
    requires Utf8.Valid(text)
    ensures r == Trimmed(text, limit)
  {
    hide Utf8.Valid, Utf8.RuneLen;
    if |text| <= limit {
      return text;
    }
    r := text[..limit];
    while !Utf8.Valid(r)
      invariant |r| <= limit && r == text[..|r|]
      invariant Trimmed(text, |r|) == Trimmed(text, limit)
      decreases |r|
    {
      Utf8.CutPoints(text, |r|);
      r := r[..|r| - 1];
    }
    Utf8.CutPoints(text, |r|);
  }

  /** Greedy splitting stops with a remainder, or at a character no segment can hold. */
  datatype Split = Split(parts: seq<string>, rest: string) | TooWide {
    function Prepend(source: seq<string>): Split {
      match this
      case TooWide => TooWide
      case Split(parts, rest) => Split(source + parts, rest)
    }
  }

  datatype Options = Options(budget: int, render: string -> string, measure: string -> int, truncationNotice: string) {

    predicate FitsRendered(rendered: string) {
      0 <= measure(rendered) <= budget
    }

    predicate Fits(source: string) {
      FitsRendered(render(source))
    }

    ghost predicate Grows(p: string, q: string, suffix: string) {
      measure(render(p + suffix)) <= measure(render(p + q + suffix))
    }

    /** What an adapter promises: the rendered size is not negative and does not
        shrink as the source in front of a fixed suffix grows. */
    ghost predicate Monotone(suffix: string) {
      && (forall s :: measure(render(s)) >= 0)
      && (forall p, q {:trigger Grows(p, q, suffix)} | Utf8.Valid(p) && Utf8.Valid(q) :: Grows(p, q, suffix))
    }

    function NoticeSuffix(): string {
      "\n" + truncationNotice
    }

    /** The two suffixes that segmentation ever uses. */
    ghost predicate AdapterContract() {
      Monotone("") && Monotone(NoticeSuffix())
    }

    /** What NewIMTextSender checks. */
    predicate Accepted() {
      && budget > 0
      && Utf8.Valid(truncationNotice) && truncationNotice != "" && |truncationNotice| + 1 <= MAX_TEXT_BYTES
      && Fits(truncationNotice)
    }

    lemma Shorter(p: string, q: string, suffix: string)
      requires Monotone(suffix) && Utf8.Valid(p) && Utf8.Valid(q) && Fits(p + q + suffix)
      ensures Fits(p + suffix)
    {
      assert Grows(p, q, suffix);
    }

    /** Reference definition: scan the cut points from the end and take the first that fits. */
    ghost function LongestFrom(source: string, suffix: string, i: nat): (low: nat)
      requires i <= |source|
      ensures low <= i
      ensures low == 0 || (Utf8.Boundary(source, low) && Fits(source[..low] + suffix))
      ensures forall j: nat :: low < j <= i && Utf8.Boundary(source, j) ==> !Fits(source[..j] + suffix)
    {
      if i == 0 || (Utf8.Boundary(source, i) && Fits(source[..i] + suffix)) then i
      else LongestFrom(source, suffix, i - 1)
    }

    ghost function Longest(source: string, suffix: string): (low: nat)
      ensures low <= |source|
    {
      LongestFrom(source, suffix, |source|)
    }

    ghost predicate NoFitAbove(source: string, suffix: string, i: nat) {
      forall j: nat :: i < j <= |source| && Utf8.Boundary(source, j) ==> !Fits(source[..j] + suffix)
    }

    lemma LongestUnique(source: string, suffix: string, low: nat)
      requires low <= |source|
      requires low == 0 || (Utf8.Boundary(source, low) && Fits(source[..low] + suffix))
      requires NoFitAbove(source, suffix, low)
      ensures low == Longest(source, suffix)
    {
    }

    /** A cut inside the text prefers the last line break before it. */
    function AtLineBreak(source: string, low: nat): (prefix: string)
      requires low <= |source|
    {
      var end := LastIndexByte(source[..low], '\n');
      if low < |source| && end >= 0 then source[..end + 1] else source[..low]
    }

    ghost function PrefixOf(source: string, suffix: string): string {
      AtLineBreak(source, Longest(source, suffix))
    }

    /** prefix: gallop from the segment budget, then bisect over rune starts. */
    method Prefix(source: string, suffix: string) returns (prefix: string)
      requires Utf8.Valid(source) && Monotone(suffix)
      ensures prefix == PrefixOf(source, suffix)
    {
      hide Utf8.Valid;
      var low, high := 0, |source|;
      var step := if budget > 1 then budget else 1;
      Utf8.CutPoints(source, 0);
      while low + step < high
        invariant step >= 1
        invariant 0 <= low <= high <= |source| && Utf8.Boundary(source, low)
        invariant low == 0 || Fits(source[..low] + suffix)
        invariant NoFitAbove(source, suffix, high)
        decreases high - low
      {
        var probe := low + step;
        while probe < high && !Utf8.RuneStart(source[probe])
          invariant low + step <= probe <= high
        {
          probe := probe + 1;
        }
        if probe >= high {
          break;
        }
        if !Fits(source[..probe] + suffix) {
          Unfit(source, suffix, probe);
          high := probe - 1;
          break;
        }
        low := probe;
        step := step * 2;
      }
      while low < high
        invariant 0 <= low <= high <= |source| && Utf8.Boundary(source, low)
        invariant low == 0 || Fits(source[..low] + suffix)
        invariant NoFitAbove(source, suffix, high)
        decreases high - low
      {
        var mid := (low + high + 1) / 2;
        if mid < |source| && !Utf8.RuneStart(source[mid]) {
          var boundary := mid;
          while boundary > low && !Utf8.RuneStart(source[boundary])
            invariant low <= boundary <= mid
            invariant forall j: nat :: boundary < j <= mid ==> !Utf8.Boundary(source, j)
          {
            boundary := boundary - 1;
          }
          if boundary == low {
            // No boundary opens between low and mid; the next one is the only
            // candidate left in range.
            var found := false;
            var next := mid + 1;
            while next <= high
              invariant mid < next <= high + 1
              invariant forall j: nat :: low < j < next ==> !Utf8.Boundary(source, j)
              decreases high - next
            {
              if next == |source| || Utf8.RuneStart(source[next]) {
                mid, found := next, true;
                break;
              }
              next := next + 1;
            }
            if !found {
              break;
            }
          } else {
            mid := boundary;
          }
        }
        if Fits(source[..mid] + suffix) {
          low := mid;
        } else {
          Unfit(source, suffix, mid);
          high := mid - 1;
        }
      }
      LongestUnique(source, suffix, low);
      prefix := source[..low];
      var end := LastIndexByte(prefix, '\n');
      if low < |source| && end >= 0 {
        prefix := prefix[..end + 1];
        assert prefix == source[..end + 1];
      }
    }

    /** Once a cut point fails, every later one fails. */
    lemma Unfit(source: string, suffix: string, i: nat)
      requires Utf8.Valid(source) && Monotone(suffix)
      requires i <= |source| && Utf8.Boundary(source, i) && !Fits(source[..i] + suffix)
      ensures forall j: nat :: i <= j <= |source| && Utf8.Boundary(source, j) ==> !Fits(source[..j] + suffix)
    {
      hide Utf8.Valid;
      forall j: nat | i <= j <= |source| && Utf8.Boundary(source, j)
        ensures !Fits(source[..j] + suffix)
      {
        Utf8.CutPoints(source, i);
        Utf8.CutPoints(source, j);
        Utf8.CutPoints(source[..j], i);
        assert source[..j][..i] == source[..i];
        assert source[..i] + source[..j][i..] == source[..j];
        if Fits(source[..j] + suffix) {
          Shorter(source[..i], source[..j][i..], suffix);
        }
      }
    }

    /** What a prefix is, without the search: a cut of the source at a rune
        boundary that fits; empty exactly when not even one character fits; and
        either as long as any cut that fits or ending in the last line break
        before the longest such cut. */
    lemma PrefixMeaning(source: string, suffix: string)
      requires Utf8.Valid(source) && Monotone(suffix)
      ensures var p := PrefixOf(source, suffix);
              && p <= source && Utf8.Boundary(source, |p|)
              && Utf8.Valid(p) && Utf8.Valid(source[|p|..])
              && (p != "" ==> Fits(p + suffix))
              && (p == "" <==> forall j: nat :: 0 < j <= |source| && Utf8.Boundary(source, j) ==>
                  !Fits(source[..j] + suffix))
              && (forall j: nat :: 0 < j <= |source| && Utf8.Boundary(source, j) && Fits(source[..j] + suffix) ==>
                    j <= |p| || (p != "" && p[|p| - 1] == '\n' && forall k :: |p| <= k < j ==> source[k] != '\n'))
    {
      hide Utf8.Valid;
      var low := Longest(source, suffix);
      var p := PrefixOf(source, suffix);
      var end := LastIndexByte(source[..low], '\n');
      Utf8.CutPoints(source, 0);
      Utf8.CutPoints(source, low);
      if low < |source| && end >= 0 {
        assert source[end] == source[..low][end] == '\n';
        Utf8.AfterAscii(source, end);
        forall k | |p| <= k < low
          ensures source[k] != '\n'
        {
          assert source[k] == source[..low][k];
        }
      }
      Utf8.CutPoints(source, |p|);
      if p != "" && Fits(source[..low] + suffix) {
        Utf8.CutPoints(source[..low], |p|);
        assert source[..low][..|p|] == p;
        assert p + source[..low][|p|..] == source[..low];
        Shorter(p, source[..low][|p|..], suffix);
      }
    }

    /** The first pass: cut off prefixes until the text or the segments run out. */
    ghost function Greedy(remaining: string, n: nat): Split
      requires Utf8.Valid(remaining) && Monotone("")
      decreases |remaining|
    {
      if n == 0 || remaining == "" then Split([], remaining)
      else
        PrefixMeaning(remaining, "");
        var part := PrefixOf(remaining, "");
        if part == "" then TooWide
        else Greedy(remaining[|part|..], n - 1).Prepend([part])
    }

    /** The second pass also stops when the rest fits together with the notice. */
    ghost function GreedyNoticed(remaining: string, n: nat): Split
      requires Utf8.Valid(remaining) && Monotone("")
      decreases |remaining|
    {
      if n == 0 || remaining == "" then Split([], remaining)
      else
        PrefixMeaning(remaining, "");
        var part := PrefixOf(remaining, "");
        if part == remaining && Fits(remaining + "\n" + truncationNotice) then Split([], remaining)
        else if part == "" then TooWide
        else GreedyNoticed(remaining[|part|..], n - 1).Prepend([part])
    }

    ghost function LastPart(remaining: string): string {
      var part := PrefixOf(remaining, NoticeSuffix());
      if part == "" then truncationNotice else part + "\n" + truncationNotice
    }

    /** The unrendered segments of a truncated text. */
    ghost function TruncatedSources(text: string): (r: Result<seq<string>>)
      requires Utf8.Valid(text) && Monotone("") && Accepted()
      ensures r.Err? ==> r.error == CharacterTooWide
    {
      match GreedyNoticed(Trimmed(text, MAX_TEXT_BYTES - |truncationNotice| - 1), MAX_TEXT_SEGMENTS - 1)
      case TooWide => Err(CharacterTooWide)
      case Split(parts, rest) => Ok(parts + [LastPart(rest)])
    }

    /** The unrendered segments, computed without the one-segment shortcut. */
    ghost function Sources(text: string): Result<seq<string>>
      requires Utf8.Valid(text) && Monotone("") && Accepted()
    {
      if |text| > MAX_TEXT_BYTES then TruncatedSources(text)
      else
        match Greedy(text, MAX_TEXT_SEGMENTS)
        case TooWide => Err(CharacterTooWide)
        case Split(parts, rest) => if rest == "" then Ok(parts) else TruncatedSources(text)
    }

    function Rendered(source: seq<string>): (r: seq<string>)
      ensures |r| == |source| && forall i :: 0 <= i < |source| ==> r[i] == render(source[i])
    {
      seq(|source|, i requires 0 <= i < |source| => render(source[i]))
    }

    /** The second pass of Segments: keep room for the notice and send it last. */
    method TruncatedSegments(text: string) returns (r: Result<seq<string>>)
      requires Utf8.Valid(text) && Accepted() && AdapterContract()
      ensures r == TruncatedSources(text)
    {
      hide Utf8.Valid, PrefixOf, Longest, LongestFrom;
      var notice := truncationNotice;
      var trimmed := TrimTextBytes(text, MAX_TEXT_BYTES - |notice| - 1);
      var remaining := trimmed;
      var source: seq<string> := [];
      while |source| < MAX_TEXT_SEGMENTS - 1 && remaining != ""
        invariant Utf8.Valid(remaining) && |source| <= MAX_TEXT_SEGMENTS - 1
        invariant GreedyNoticed(trimmed, MAX_TEXT_SEGMENTS - 1) == GreedyNoticed(remaining,
                    MAX_TEXT_SEGMENTS - 1 - |source|).Prepend(source)
        decreases MAX_TEXT_SEGMENTS - |source|
      {
        var part := Prefix(remaining, "");
        PrefixMeaning(remaining, "");
        if part == remaining && Fits(remaining + "\n" + notice) {
          break;
        }
        if part == "" {
          return Err(CharacterTooWide);
        }
        PrependTwice(source, part, GreedyNoticed(remaining[|part|..], MAX_TEXT_SEGMENTS - 2 - |source|));
        source := source + [part];
        remaining := remaining[|part|..];
      }
      assert source + [] == source;
      assert GreedyNoticed(trimmed, MAX_TEXT_SEGMENTS - 1) == Split(source, remaining);
      var part := Prefix(remaining, "\n" + notice);
      if part == "" {
        source := source + [notice];
      } else {
        source := source + [part + "\n" + notice];
      }
      r := Ok(source);
    }

    /** The first pass of Segments: does the whole text fit the segments? */
    method WholeSegments(text: string) returns (split: Split)
      requires Utf8.Valid(text) && AdapterContract()
      ensures split == Greedy(text, MAX_TEXT_SEGMENTS)
    {
      hide Utf8.Valid, PrefixOf, Longest, LongestFrom;
      var source: seq<string> := [];
      var remaining := text;
      while |source| < MAX_TEXT_SEGMENTS && remaining != ""
        invariant Utf8.Valid(remaining) && |source| <= MAX_TEXT_SEGMENTS
        invariant Greedy(text, MAX_TEXT_SEGMENTS) == Greedy(remaining, MAX_TEXT_SEGMENTS - |source|).Prepend(source)
        decreases MAX_TEXT_SEGMENTS - |source|
      {
        var part := Prefix(remaining, "");
        PrefixMeaning(remaining, "");
        if part == "" {
          return TooWide;
        }
        PrependTwice(source, part, Greedy(remaining[|part|..], MAX_TEXT_SEGMENTS - |source| - 1));
        source := source + [part];
        remaining := remaining[|part|..];
      }
      assert source + [] == source;
      split := Split(source, remaining);
    }

    method RenderAll(source: seq<string>) returns (rendered: seq<string>)
      ensures rendered == Rendered(source)
    {
      rendered := [];
      for i := 0 to |source|
        invariant |rendered| == i && forall k :: 0 <= k < i ==> rendered[k] == render(source[k])
      {
        rendered := rendered + [render(source[i])];
      }
    }

    method Segments(text: string) returns (r: Result<seq<string>>)
      requires Accepted() && AdapterContract()
      ensures !Utf8.Valid(text) <==> r == Err(InvalidUtf8)
      ensures Utf8.Valid(text) ==>
                r == match Sources(text) case Err(e) => Err(e) case Ok(source) => Ok(Rendered(source))
    {
      hide Utf8.Valid, PrefixOf, Longest, LongestFrom, Greedy, GreedyNoticed, TruncatedSources;
      if !Utf8.Valid(text) {
        return Err(InvalidUtf8);
      }
      if text == "" {
        NoText();
        return Ok([]);
      }
      var raw := TrimTextBytes(text, MAX_TEXT_BYTES);
      if |raw| == |text| {
        var rendered := render(raw);
        if FitsRendered(rendered) {
          OneSegment(text);
          assert Rendered([text]) == [rendered];
          return Ok([rendered]);
        }
      }
      var source: seq<string> := [];
      var remaining := raw;
      // The byte cap already forces the notice, so only an uncapped text is tried whole.
      if |raw| == |text| {
        var split := WholeSegments(text);
        if split.TooWide? {
          return Err(CharacterTooWide);
        }
        source, remaining := split.parts, split.rest;
      }
      var truncated := remaining != "" || |raw| != |text|;
      if truncated {
        var cut := TruncatedSegments(text);
        if cut.Err? {
          return Err(cut.error);
        }
        source := cut.value;
      }
      var rendered := RenderAll(source);
      r := Ok(rendered);
    }

    lemma NoText()
      requires Accepted() && Monotone("")
      ensures Utf8.Valid("") && Sources("") == Ok([]) && Rendered([]) == []
    {
      assert Greedy("", MAX_TEXT_SEGMENTS) == Split([], "");
    }

    lemma PrependTwice(source: seq<string>, part: string, s: Split)
      ensures s.Prepend([part]).Prepend(source) == s.Prepend(source + [part])
    {
      if s.Split? {
        assert source + ([part] + s.parts) == source + [part] + s.parts;
      }
    }

    lemma WholePrefix(text: string)
      requires Fits(text)
      ensures PrefixOf(text, "") == text
    {
      assert text[..|text|] + "" == text;
    }

    /** The shortcut for a text that fits as a whole agrees with the search. */
    lemma OneSegment(text: string)
      requires Utf8.Valid(text) && text != "" && |text| <= MAX_TEXT_BYTES
      requires Monotone("") && Accepted() && Fits(text)
      ensures Sources(text) == Ok([text])
    {
      hide Utf8.Valid, PrefixOf, Longest, LongestFrom;
      WholePrefix(text);
      PrefixMeaning(text, "");
      assert text[|text|..] == "";
      assert Greedy("", MAX_TEXT_SEGMENTS - 1) == Split([], "");
      assert Greedy(text, MAX_TEXT_SEGMENTS) == Split([text], "");
    }

    ghost predicate Good(part: string) {
      part != "" && Utf8.Valid(part) && Fits(part)
    }

    lemma {:induction false} GreedyMeaning(remaining: string, n: nat)
      requires Utf8.Valid(remaining) && Monotone("")
      ensures var g := Greedy(remaining, n);
              g.Split? ==>
                && Concat(g.parts) + g.rest == remaining && |g.parts| <= n
                && (g.rest == "" || |g.parts| == n)
                && (forall i :: 0 <= i < |g.parts| ==> Good(g.parts[i]))
      decreases |remaining|
    {
      hide Utf8.Valid, PrefixOf, Longest, LongestFrom;
      if n > 0 && remaining != "" {
        PrefixMeaning(remaining, "");
        var part := PrefixOf(remaining, "");
        if part != "" {
          GreedyMeaning(remaining[|part|..], n - 1);
          assert part + "" == part;
          var g := Greedy(remaining[|part|..], n - 1);
          if g.Split? {
            assert ([part] + g.parts)[1..] == g.parts;
            assert part + remaining[|part|..] == remaining;
            assert Concat([part] + g.parts) + g.rest == part + (Concat(g.parts) + g.rest);
          }
        }
      }
    }

    lemma {:induction false} GreedyNoticedMeaning(remaining: string, n: nat)
      requires Utf8.Valid(remaining) && Monotone("")
      ensures var g := GreedyNoticed(remaining, n);
              g.Split? ==>
                && Concat(g.parts) + g.rest == remaining && |g.parts| <= n
                && Utf8.Valid(g.rest)
                && (forall i :: 0 <= i < |g.parts| ==> Good(g.parts[i]))
      decreases |remaining|
    {
      hide Utf8.Valid, PrefixOf, Longest, LongestFrom;
      if n > 0 && remaining != "" {
        PrefixMeaning(remaining, "");
        var part := PrefixOf(remaining, "");
        if !(part == remaining && Fits(remaining + "\n" + truncationNotice)) && part != "" {
          GreedyNoticedMeaning(remaining[|part|..], n - 1);
          assert part + "" == part;
          var g := GreedyNoticed(remaining[|part|..], n - 1);
          if g.Split? {
            assert ([part] + g.parts)[1..] == g.parts;
            assert part + remaining[|part|..] == remaining;
            assert Concat([part] + g.parts) + g.rest == part + (Concat(g.parts) + g.rest);
          }
        }
      }
    }

    /** The end of a truncated output: a cut of the text, then the notice. */
    ghost predicate CutWithNotice(text: string, whole: string, cut: nat) {
      && cut <= |text| && Utf8.Boundary(text, cut)
      && (whole == text[..cut] + "\n" + truncationNotice || whole == text[..cut] + truncationNotice)
    }

    lemma LastPartMeaning(rest: string)
      requires Utf8.Valid(rest) && Accepted() && AdapterContract()
      ensures Fits(LastPart(rest))
      ensures exists p :: p <= rest && Utf8.Boundary(rest, |p|) &&
                (LastPart(rest) == p + "\n" + truncationNotice || LastPart(rest) == p + truncationNotice)
    {
      hide Utf8.Valid;
      PrefixMeaning(rest, NoticeSuffix());
      var p := PrefixOf(rest, NoticeSuffix());
      assert p + NoticeSuffix() == p + "\n" + truncationNotice;
      assert "" + truncationNotice == truncationNotice;
      assert p <= rest;
    }

    lemma TruncatedMeaning(text: string)
      requires Utf8.Valid(text) && Accepted() && AdapterContract()
      requires TruncatedSources(text).Ok?
      ensures var source := TruncatedSources(text).value;
              && 0 < |source| <= MAX_TEXT_SEGMENTS
              && (forall i :: 0 <= i < |source| ==> Fits(source[i]))
              && (exists cut: nat :: CutWithNotice(text, Concat(source), cut))
              && |Concat(source)| <= MAX_TEXT_BYTES
    {
      hide Utf8.Valid, Greedy, GreedyNoticed, LastPart, Trimmed, Concat, Fits, Monotone, CutWithNotice, Good;
      var trimmed := Trimmed(text, MAX_TEXT_BYTES - |truncationNotice| - 1);
      var g := GreedyNoticed(trimmed, MAX_TEXT_SEGMENTS - 1);
      GreedyNoticedMeaning(trimmed, MAX_TEXT_SEGMENTS - 1);
      WithLastPart(text, trimmed, g.parts, g.rest);
      AllFit(g.parts, LastPart(g.rest));
    }

    /** What the segments of the trimmed text and the last part, with the notice, make up. */
    lemma WithLastPart(text: string, trimmed: string, parts: seq<string>, rest: string)
      requires Utf8.Valid(text) && Utf8.Valid(trimmed) && trimmed <= text && Accepted() && AdapterContract()
      requires Utf8.Valid(rest) && Concat(parts) + rest == trimmed
      ensures var whole := Concat(parts + [LastPart(rest)]);
              && |whole| <= |trimmed| + 1 + |truncationNotice| && exists cut: nat :: CutWithNotice(text, whole, cut)
      ensures Fits(LastPart(rest))
    {
      hide Utf8.Valid, LastPart, Concat, Fits, Utf8.Boundary, Monotone, CutWithNotice;
      LastPartMeaning(rest);
      var last := LastPart(rest);
      var p :| p <= rest && Utf8.Boundary(rest, |p|)
        && (last == p + "\n" + truncationNotice || last == p + truncationNotice);
      ConcatAppend(parts, [last]);
      ConcatOne(last);
      NoticeAfter(text, trimmed, Concat(parts), rest, p, last);
    }

    lemma AllFit(parts: seq<string>, last: string)
      requires Fits(last) && forall i :: 0 <= i < |parts| ==> Good(parts[i])
      ensures forall i :: 0 <= i < |parts + [last]| ==> Fits((parts + [last])[i])
    {
      hide Fits;
      forall i | 0 <= i < |parts + [last]|
        ensures Fits((parts + [last])[i])
      {
        assert i < |parts| ==> Good(parts[i]);
      }
    }

    lemma ConcatOne(part: string)
      ensures Concat([part]) == part
    {
      assert Concat([part]) == part + "";
    }

    lemma NoticeAfter(text: string, trimmed: string, front: string, rest: string, p: string, last: string)
      requires Utf8.Valid(text) && Utf8.Valid(trimmed) && trimmed <= text
      requires front + rest == trimmed && p <= rest && Utf8.Boundary(rest, |p|)
      requires last == p + "\n" + truncationNotice || last == p + truncationNotice
      ensures CutWithNotice(text, front + last, |front| + |p|)
    {
      hide Utf8.Valid;
      BoundaryThrough(text, trimmed, front, rest, |p|);
      assert front + p == text[..|front| + |p|];
      assert front + (p + "\n" + truncationNotice) == front + p + "\n" + truncationNotice;
      assert front + (p + truncationNotice) == front + p + truncationNotice;
    }

    lemma BoundaryThrough(text: string, trimmed: string, front: string, rest: string, i: nat)
      requires Utf8.Valid(text) && Utf8.Valid(trimmed) && trimmed <= text
      requires front + rest == trimmed && i <= |rest| && Utf8.Boundary(rest, i)
      ensures Utf8.Boundary(text, |front| + i)
    {
      hide Utf8.Valid;
      Utf8.CutPoints(text, |trimmed|);
      assert text[..|trimmed|] == trimmed;
      if i < |rest| {
        assert text[|front| + i] == trimmed[|front| + i] == rest[i];
      }
    }

    /** The main promise of segmentation. Every segment fits its budget and there
        are at most 32. Together their sources are the text itself, or the front
        of it, cut between two characters, and the truncation notice, within 64 KiB. */
    lemma SourcesMeaning(text: string)
      requires Utf8.Valid(text) && Accepted() && AdapterContract()
      requires Sources(text).Ok?
      ensures var source := Sources(text).value;
              && |source| <= MAX_TEXT_SEGMENTS
              && (forall i :: 0 <= i < |source| ==> Fits(source[i]))
              && |Concat(source)| <= MAX_TEXT_BYTES
              && (Concat(source) == text || exists cut: nat :: CutWithNotice(text, Concat(source), cut))
    {
      hide Utf8.Valid;
      var g := Greedy(text, MAX_TEXT_SEGMENTS);
      GreedyMeaning(text, MAX_TEXT_SEGMENTS);
      if |text| <= MAX_TEXT_BYTES && g.Split? && g.rest == "" {
        assert Concat(g.parts) + "" == Concat(g.parts);
        forall i | 0 <= i < |g.parts|
          ensures Fits(g.parts[i])
        {
          assert Good(g.parts[i]);
        }
      } else {
        TruncatedMeaning(text);
      }
    }

    /** A character of the text that is over budget by itself. */
    ghost predicate WideAt(text: string, i: nat) {
      i < |text| && Utf8.Boundary(text, i) && !Fits(text[i..i + Utf8.RuneLen(text[i..])])
    }

    lemma StuckMeaning(remaining: string)
      requires Utf8.Valid(remaining) && remaining != "" && Monotone("") && PrefixOf(remaining, "") == ""
      ensures WideAt(remaining, 0)
    {
      PrefixMeaning(remaining, "");
      var n := Utf8.RuneLen(remaining);
      assert remaining[0..] == remaining;
      assert Utf8.Valid(remaining[n..]);
      Utf8.CutPoints(remaining, n);
      Utf8.CutPoints(remaining, 0);
      assert remaining[..n] + "" == remaining[0..n];
    }

    lemma {:induction false} TooWideMeaning(remaining: string, n: nat, noticed: bool)
      requires Utf8.Valid(remaining) && Monotone("")
      requires (if noticed then GreedyNoticed(remaining, n) else Greedy(remaining, n)).TooWide?
      ensures exists i: nat :: WideAt(remaining, i)
      decreases |remaining|
    {
      hide Utf8.Valid, PrefixOf, Longest, LongestFrom, WideAt;
      PrefixMeaning(remaining, "");
      var part := PrefixOf(remaining, "");
      if part == "" {
        StuckMeaning(remaining);
      } else {
        var rest := remaining[|part|..];
        TooWideMeaning(rest, n - 1, noticed);
        var i: nat :| WideAt(rest, i);
        WideAfter(remaining, |part|, i);
      }
    }

    lemma WideAfter(text: string, n: nat, i: nat)
      requires n <= |text| && WideAt(text[n..], i)
      ensures WideAt(text, n + i)
    {
      hide Utf8.Valid, Utf8.RuneLen;
      var rest := text[n..];
      assert rest[i..] == text[n + i..];
      var len := Utf8.RuneLen(rest[i..]);
      assert rest[i..i + len] == text[n + i..n + i + len];
    }

    lemma WideThrough(text: string, front: string, i: nat)
      requires Utf8.Valid(front) && front <= text && WideAt(front, i)
      ensures WideAt(text, i)
    {
      hide Utf8.Valid, Utf8.RuneLen;
      Utf8.CutPoints(front, i);
      Utf8.ValidStart(front[i..]);
      assert text[i..] == front[i..] + text[|front|..];
      Utf8.RuneLenLocal(front[i..], text[|front|..]);
      var len := Utf8.RuneLen(front[i..]);
      assert text[i..i + len] == front[i..i + len];
      assert text[i] == front[i];
    }

    /** An error always names a real cause: some single character exceeds the budget. */
    lemma ErrorMeaning(text: string)
      requires Utf8.Valid(text) && Accepted() && AdapterContract()
      requires Sources(text).Err?
      ensures Sources(text) == Err(CharacterTooWide)
      ensures exists i: nat :: WideAt(text, i)
    {
      hide Utf8.Valid, Utf8.RuneLen, PrefixOf, Longest, LongestFrom, Greedy, GreedyNoticed, LastIndexByte, Trimmed;
      if |text| <= MAX_TEXT_BYTES && Greedy(text, MAX_TEXT_SEGMENTS).TooWide? {
        TooWideMeaning(text, MAX_TEXT_SEGMENTS, false);
      } else {
        var trimmed := Trimmed(text, MAX_TEXT_BYTES - |truncationNotice| - 1);
        TooWideMeaning(trimmed, MAX_TEXT_SEGMENTS - 1, true);
        var i: nat :| WideAt(trimmed, i);
        WideThrough(text, trimmed, i);
      }
    }
  }
}
