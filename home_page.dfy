/** The appraisal form (pages/HomePage.tsx): the textarea is turned into a list of domain
    names, an empty list is refused before any request, and a request in flight shows a
    loading state with an elapsed-seconds counter. */
module HomePage {
  import opened Wrappers
  import opened Types
  import opened Text
  import opened Seqs

  const EmptyInputError: string := "Please enter at least one domain name."
  const AppraiseError: string := "Failed to appraise domains. Please try again."

  predicate NonEmpty(d: string) { |d| > 0 }

  /** `lines.map(d => d.trim())`. */
  function TrimAll(lines: seq<string>): (r: seq<string>)
    ensures |r| == |lines|
    ensures forall k :: 0 <= k < |r| ==> r[k] == Trim(lines[k])
  {
    seq(|lines|, k requires 0 <= k < |lines| => Trim(lines[k]))
  }

  /** The textarea's domain list: one entry per line, trimmed, blank lines dropped. */
  function ParseDomainList(text: string): (r: seq<string>)
    ensures forall d :: d in r ==> d != "" && IsTrimmed(d)
  {
    Filter(TrimAll(Split(text, '\n')), NonEmpty)
  }

  /** At most one domain per line of the textarea. */
  lemma AtMostOnePerLine(text: string)
    ensures |ParseDomainList(text)| <= Count(text, '\n') + 1
  {
    var lines := Split(text, '\n');
    assert |TrimAll(lines)| == Count(text, '\n') + 1;
  }

  lemma TrimAllAppend(a: seq<string>, b: seq<string>)
    ensures TrimAll(a + b) == TrimAll(a) + TrimAll(b)
  {
  }

  /** Text made of newline-free lines parses to those lines, trimmed, minus the blank ones,
      in their order. */
  lemma ParseOfLines(lines: seq<string>)
    requires |lines| >= 1
    requires forall k :: 0 <= k < |lines| ==> '\n' !in lines[k]
    ensures ParseDomainList(Join(lines, "\n")) == Filter(TrimAll(lines), NonEmpty)
  {
    SplitJoin(lines, '\n');
  }

  /** Lines keep their order: the entries of a block of lines come before those of the next. */
  lemma ParseConcatenates(a: seq<string>, b: seq<string>)
    requires |a| >= 1 && |b| >= 1
    requires forall k :: 0 <= k < |a| ==> '\n' !in a[k]
    requires forall k :: 0 <= k < |b| ==> '\n' !in b[k]
    ensures ParseDomainList(Join(a + b, "\n"))
            == ParseDomainList(Join(a, "\n")) + ParseDomainList(Join(b, "\n"))
  {
    ParseOfLines(a);
    ParseOfLines(b);
    ParseOfLines(a + b);
    TrimAllAppend(a, b);
    FilterAppend(TrimAll(a), TrimAll(b), NonEmpty);
  }

  /** Trimming lines that are already trimmed changes nothing. */
  lemma TrimAllTrimmed(xs: seq<string>)
    requires forall d :: d in xs ==> IsTrimmed(d)
    ensures TrimAll(xs) == xs
  {
    forall k | 0 <= k < |xs| ensures Trim(xs[k]) == xs[k] {
      assert xs[k] in xs;
      TrimOfTrimmed(xs[k]);
    }
  }

  /** Empty text is one blank line, which is dropped. */
  lemma ParseEmpty()
    ensures ParseDomainList("") == []
  {
    assert Split("", '\n') == [""];
    var t := TrimAll([""]);
    assert t[0] == Trim("") == "";
    assert Filter(t, NonEmpty) == [];
  }

  /** A list of names the form itself would produce, written one per line, reads back as
      exactly that list. */
  lemma ParseRoundTrip(domains: seq<string>)
    requires forall d :: d in domains ==> d != "" && IsTrimmed(d) && '\n' !in d
    ensures ParseDomainList(Join(domains, "\n")) == domains
  {
    if domains == [] {
      ParseEmpty();
    } else {
      ParseOfLines(domains);
      TrimAllTrimmed(domains);
      FilterAll(domains, NonEmpty);
    }
  }

  /** What pressing "Appraise" asks for: the domain list, or the empty-input error. */
  function AppraiseRequest(text: string): (r: Result<seq<string>, string>)
    ensures r.Failure? ==> r.error == EmptyInputError
    ensures r.Success? ==> |r.value| >= 1 && forall d :: d in r.value ==> d != "" && IsTrimmed(d)
  {
    var ds := ParseDomainList(text);
    if ds == [] then Failure(EmptyInputError) else Success(ds)
  }

  /** Input with no non-blank line is refused without a request. */
  lemma BlankInputRefused(lines: seq<string>)
    requires |lines| >= 1
    requires forall k :: 0 <= k < |lines| ==> '\n' !in lines[k] && Trim(lines[k]) == ""
    ensures AppraiseRequest(Join(lines, "\n")) == Failure(EmptyInputError)
  {
    ParseOfLines(lines);
    BlankLinesDropped(lines);
  }

  /** Lines that trim to nothing all fall out of the list. */
  lemma BlankLinesDropped(lines: seq<string>)
    requires forall k :: 0 <= k < |lines| ==> Trim(lines[k]) == ""
    ensures Filter(TrimAll(lines), NonEmpty) == []
  {
    var t := TrimAll(lines);
    forall x | x in t ensures !NonEmpty(x) {
      var k :| 0 <= k < |t| && t[k] == x;
    }
    FilterNone(t, NonEmpty);
  }

  /** The page's state while appraising. */
  class HomeState {
    var isLoading: bool
    var error: Option<string>
    var elapsedTime: nat

    constructor ()
      ensures !isLoading && error == None && elapsedTime == 0
    {
      isLoading := false;
      error := None;
      elapsedTime := 0;
    }

    /** The synchronous part of `handleAppraise`: returns the domains to send, or `None`
        when the input is refused (no request is made then). */
    method StartAppraise(text: string) returns (request: Option<seq<string>>)
      modifies this
      ensures AppraiseRequest(text).Failure? ==>
                request == None && error == Some(EmptyInputError)
                && isLoading == old(isLoading) && elapsedTime == old(elapsedTime)
      ensures AppraiseRequest(text).Success? ==>
                request == Some(AppraiseRequest(text).value)
                && isLoading && error == None && elapsedTime == 0
    {
      var parsed := AppraiseRequest(text);
      if parsed.Failure? {
        error := Some(parsed.error);
        request := None;
        return;
      }
      elapsedTime := 0;
      isLoading := true;
      error := None;
      request := Some(parsed.value);
    }

    /** The end of `handleAppraise`: the results to show, or the failure message; the
        loading state ends either way. */
    method FinishAppraise(outcome: Result<BatchValuationResult, string>) returns (show: Option<BatchValuationResult>)
      modifies this
      ensures !isLoading && elapsedTime == old(elapsedTime)
      ensures outcome.Success? ==> show == Some(outcome.value) && error == old(error)
      ensures outcome.Failure? ==> show == None && error == Some(AppraiseError)
    {
      if outcome.Failure? {
        error := Some(AppraiseError);
        show := None;
      } else {
        show := Some(outcome.value);
      }
      isLoading := false;
    }

    /** One tick of the one-second interval, which only runs while loading. */
    method Tick()
      requires isLoading
      modifies this`elapsedTime
      ensures elapsedTime == old(elapsedTime) + 1
    {
      elapsedTime := elapsedTime + 1;
    }
  }
}
