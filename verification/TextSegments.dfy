/** What the segments of a text are, apart from how they are found
    (internal/im/im_text_send.go:252-375). */
module TextSegments {
  import Utf8
  import opened TextSend

  /** The last cut between two characters at which the front fits, together with the suffix. */
  ghost predicate IsLongest(o: Options, source: string, suffix: string, low: nat) {
    && low <= |source| && (low == 0 || (Utf8.Boundary(source, low) && o.Fits(source[..low] + suffix)))
    && forall j: nat :: low < j <= |source| && Utf8.Boundary(source, j) ==> !o.Fits(source[..j] + suffix)
  }

  /** The front up to the cut, or up to the last line break before it if more text follows. */
  predicate CutAt(source: string, low: nat, p: string) {
    && |p| <= low <= |source| && p == source[..|p|]
    && if low < |source| && '\n' in source[..low] then
         p != "" && p[|p| - 1] == '\n' && '\n' !in source[|p|..low]
       else |p| == low
  }

  ghost predicate IsPrefix(o: Options, source: string, suffix: string, p: string) {
    exists low: nat :: IsLongest(o, source, suffix, low) && CutAt(source, low, p)
  }

  lemma CutExactly(o: Options, source: string, low: nat, p: string)
    requires low <= |source|
    ensures CutAt(source, low, p) <==> p == o.AtLineBreak(source, low)
  {
  }

  /** The search finds that front and no other. */
  lemma PrefixExactly(o: Options, source: string, suffix: string, p: string)
    ensures IsPrefix(o, source, suffix, p) <==> p == o.PrefixOf(source, suffix)
  {
    var low := o.Longest(source, suffix);
    assert IsLongest(o, source, suffix, low);
    CutExactly(o, source, low, p);
    if IsPrefix(o, source, suffix, p) {
      var other: nat :| IsLongest(o, source, suffix, other) && CutAt(source, other, p);
      o.LongestUnique(source, suffix, other);
    }
  }

  /** Each part is such a front, not empty, of what the parts before it leave of the text. */
  ghost predicate Leads(o: Options, text: string, parts: seq<string>, rest: string)
    decreases |parts|
  {
    if parts == [] then text == rest
    else
      parts[0] != "" && parts[0] <= text && IsPrefix(o, text, "", parts[0])
      && Leads(o, text[|parts[0]|..], parts[1..], rest)
  }

  lemma {:induction false} GreedyLeads(o: Options, text: string, n: nat)
    requires Utf8.Valid(text) && o.Monotone("")
    ensures var g := o.Greedy(text, n); g.Split? ==> Leads(o, text, g.parts, g.rest)
    decreases |text|
  {
    hide Utf8.Valid, Utf8.Boundary, IsPrefix, Options.PrefixOf, Options.Longest, Options.Fits, Options.Monotone;
    if n > 0 && text != "" {
      o.PrefixMeaning(text, "");
      var part := o.PrefixOf(text, "");
      PrefixExactly(o, text, "", part);
      if part != "" {
        GreedyLeads(o, text[|part|..], n - 1);
        var g := o.Greedy(text[|part|..], n - 1);
        if g.Split? {
          assert ([part] + g.parts)[1..] == g.parts;
        }
      }
    }
  }

  /** There is only one way to lead through a whole text. */
  lemma {:induction false} LeadsGreedy(o: Options, text: string, n: nat, parts: seq<string>)
    requires Utf8.Valid(text) && o.Monotone("") && Leads(o, text, parts, "") && |parts| <= n
    ensures o.Greedy(text, n) == Split(parts, "")
    decreases |text|
  {
    hide Utf8.Valid, Utf8.Boundary, IsPrefix, Options.PrefixOf, Options.Longest, Options.Fits, Options.Monotone;
    if parts != [] {
      var part := parts[0];
      o.PrefixMeaning(text, "");
      PrefixExactly(o, text, "", part);
      LeadsGreedy(o, text[|part|..], n - 1, parts[1..]);
      assert [part] + parts[1..] == parts;
    }
  }

  /** The second pass stops as soon as the rest fits with the notice. */
  lemma {:induction false} NoticedLeads(o: Options, text: string, n: nat)
    requires Utf8.Valid(text) && o.Monotone("")
    ensures var g := o.GreedyNoticed(text, n);
            g.Split? ==>
              && Leads(o, text, g.parts, g.rest) && |g.parts| <= n
              && (|g.parts| == n || g.rest == "" || Closes(o, g.rest))
              && (g.parts != [] && g.rest == "" ==> !o.Fits(g.parts[|g.parts| - 1] + o.NoticeSuffix()))
    decreases |text|
  {
    hide Utf8.Valid, Utf8.Boundary, IsPrefix, Options.PrefixOf, Options.Longest, Options.Fits, Options.Monotone;
    if n > 0 && text != "" {
      o.PrefixMeaning(text, "");
      var part := o.PrefixOf(text, "");
      PrefixExactly(o, text, "", part);
      SameEnd(part, o.truncationNotice);
      if !(part == text && o.Fits(text + "\n" + o.truncationNotice)) && part != "" {
        NoticedLeads(o, text[|part|..], n - 1);
        var g := o.GreedyNoticed(text[|part|..], n - 1);
        if g.Split? {
          assert ([part] + g.parts)[1..] == g.parts;
        }
      }
    }
  }

  lemma SameEnd(part: string, notice: string)
    ensures part + "\n" + notice == part + ("\n" + notice)
  {
  }

  /** The rest is one segment, also with the notice. */
  ghost predicate Closes(o: Options, rest: string) {
    IsPrefix(o, rest, "", rest) && o.Fits(rest + o.NoticeSuffix())
  }

  /** The segments of a text that is cut short: those of its front of at most 64 KiB with
      the notice, up to a last one that ends with the notice. That one comes as soon as the
      rest fits with the notice, or when it is the 32nd. */
  ghost predicate EndsWithNotice(o: Options, text: string, parts: seq<string>, front: string, rest: string, q: string) {
    && 0 < |parts| <= 32
    && front <= text && |front| + |o.truncationNotice| + 1 <= 65536
    && (forall j: nat :: |front| < j <= |text| && j + |o.truncationNotice| + 1 <= 65536 ==> !Utf8.Boundary(text, j))
    && var n := |parts| - 1;
       && Leads(o, front, parts[..n], rest) && (n == 31 || rest == "" || Closes(o, rest))
       && (n > 0 && rest == "" ==> !o.Fits(parts[n - 1] + o.NoticeSuffix()))
       && IsPrefix(o, rest, o.NoticeSuffix(), q)
       && parts[n] == if q == "" then o.truncationNotice else q + o.NoticeSuffix()
  }

  lemma TruncatedExactly(o: Options, text: string)
    requires Utf8.Valid(text) && o.Accepted() && o.AdapterContract() && o.TruncatedSources(text).Ok?
    ensures exists front, rest, q :: EndsWithNotice(o, text, o.TruncatedSources(text).value, front, rest, q)
  {
    hide Utf8.Valid, IsPrefix, Leads, Closes, Trimmed, Options.PrefixOf, Options.GreedyNoticed, Options.LastPart,
         Options.Fits, Options.Monotone, EndsWithNotice;
    var front := Trimmed(text, MAX_TEXT_BYTES - |o.truncationNotice| - 1);
    var g := o.GreedyNoticed(front, 31);
    NoticedLeads(o, front, 31);
    WithNotice(o, text, front, g.parts, g.rest);
  }

  lemma WithNotice(o: Options, text: string, front: string, parts: seq<string>, rest: string)
    requires front <= text && |front| + |o.truncationNotice| + 1 <= 65536
    requires forall j: nat :: |front| < j <= |text| && j + |o.truncationNotice| + 1 <= 65536 ==> !Utf8.Boundary(text, j)
    requires Leads(o, front, parts, rest) && |parts| <= 31 && (|parts| == 31 || rest == "" || Closes(o, rest))
    requires parts != [] && rest == "" ==> !o.Fits(parts[|parts| - 1] + o.NoticeSuffix())
    ensures EndsWithNotice(o, text, parts + [o.LastPart(rest)], front, rest, o.PrefixOf(rest, o.NoticeSuffix()))
  {
    hide Utf8.Boundary, IsPrefix, Leads, Closes, Options.PrefixOf, Options.Fits;
    var q := o.PrefixOf(rest, o.NoticeSuffix());
    PrefixExactly(o, rest, o.NoticeSuffix(), q);
    SameEnd(q, o.truncationNotice);
    assert (parts + [o.LastPart(rest)])[..|parts|] == parts;
  }

  /** The segments of a text within 64 KiB are its successive longest fronts if 32 of them
      are enough. Otherwise, if there are segments at all, they end with the notice. */
  lemma SegmentsExactly(o: Options, text: string)
    requires Utf8.Valid(text) && o.Accepted() && o.AdapterContract() && o.Sources(text).Ok?
    ensures var parts := o.Sources(text).value;
            if |text| <= 65536 && exists ps :: |ps| <= 32 && Leads(o, text, ps, "") then
              |parts| <= 32 && Leads(o, text, parts, "")
            else exists front, rest, q :: EndsWithNotice(o, text, parts, front, rest, q)
  {
    hide Utf8.Valid, Leads, EndsWithNotice;
    if |text| <= 65536 && exists ps :: |ps| <= 32 && Leads(o, text, ps, "") {
      var ps :| |ps| <= 32 && Leads(o, text, ps, "");
      LeadsGreedy(o, text, 32, ps);
    } else {
      if |text| <= 65536 {
        GreedyLeads(o, text, 32);
        o.GreedyMeaning(text, 32);
      }
      TruncatedExactly(o, text);
    }
  }
}
