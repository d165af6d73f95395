/** The header pattern reads back what the renderer writes in a block's header. */
module HeaderLaws {
  import opened Wrappers
  import opened Text
  import opened Matching
  import opened Releases

  /** The doc path ends where a line starts. */
  lemma DocPathEndStartsLine()
    ensures forall x :: DocPathEnd(x) ==> |x| > 0 && x[0] == '\n'
  {
    forall x | DocPathEnd(x)
      ensures |x| > 0 && x[0] == '\n'
    {
      assert x[..|CliMarker|] == CliMarker;
      assert x[0] == x[..|CliMarker|][0];
    }
  }

  /** The CLI version is read up to the first space. */
  lemma CliVersionStep(v: string, dv: string, dp: string, pre: string, cv: string, rest: string, k: nat)
    requires ' ' !in cv && CliVersionEnd(rest) && k == |pre|
    ensures HeaderCliVersion(v, dv, dp, pre + cv + rest, k) == Some(HeaderFields(v, dv, dp, cv))
  {
    ScanPast(pre, cv, rest, CliVersionEnd, true, ' ');
    SliceOfConcat(pre, cv, rest);
  }

  /** The CLI line, up to the space after the CLI version, ends the doc path. */
  lemma CliLineEndsDocPath(cv: string, rest: string)
    requires ' ' !in cv && CliVersionEnd(rest)
    ensures DocPathEnd(CliMarker + cv + rest)
  {
    ScanPast(CliMarker, cv, rest, CliVersionEnd, true, ' ');
    PrefixOfConcat(CliMarker, cv + rest);
    Assoc(CliMarker, cv, rest);
  }

  /** The doc path runs up to the first newline. */
  lemma DocPathScan(pre: string, dp: string, x: string, s: string)
    requires '\n' !in dp && DocPathEnd(x) && s == pre + dp + x
    ensures LazyScan(s, DocPathEnd, true, |pre|) == Some(|pre| + |dp|)
    ensures s[|pre|..|pre| + |dp|] == dp
  {
    DocPathEndStartsLine();
    ScanPast(pre, dp, x, DocPathEnd, true, '\n');
    SliceOfConcat(pre, dp, x);
  }

  /** HeaderDocPath unfolded once its scan is known. */
  lemma DocPathUnfold(v: string, dv: string, dp: string, s: string, k: nat, q: nat)
    requires k <= q <= |s|
    requires LazyScan(s, DocPathEnd, true, k) == Some(q)
    requires s[k..q] == dp
    ensures HeaderDocPath(v, dv, s, k) == HeaderCliVersion(v, dv, dp, s, q + |CliMarker|)
  {
  }

  /** The doc path of a rendered header runs up to the CLI line. */
  lemma DocPathScanOf(pre: string, dp: string, cv: string, rest: string, s: string)
    requires '\n' !in dp && ' ' !in cv && CliVersionEnd(rest)
    requires s == pre + dp + CliMarker + cv + rest
    ensures LazyScan(s, DocPathEnd, true, |pre|) == Some(|pre| + |dp|)
    ensures s[|pre|..|pre| + |dp|] == dp
  {
    var x := CliMarker + cv + rest;
    assert s == pre + dp + x by {
      Group3(pre + dp, CliMarker, cv, rest);
    }
    CliLineEndsDocPath(cv, rest);
    DocPathScan(pre, dp, x, s);
  }

  lemma DocPathStep(v: string, dv: string, pre: string, dp: string, cv: string, rest: string)
    requires '\n' !in dp && ' ' !in cv && CliVersionEnd(rest)
    ensures HeaderDocPath(v, dv, pre + dp + CliMarker + cv + rest, |pre|) == Some(HeaderFields(v, dv, dp, cv))
  {
    var s := pre + dp + CliMarker + cv + rest;
    var q := |pre| + |dp|;
    DocPathScanOf(pre, dp, cv, rest, s);
    CliVersionStep(v, dv, dp, pre + dp + CliMarker, cv, rest, q + |CliMarker|);
    DocPathUnfold(v, dv, dp, s, |pre|, q);
  }

  /** What follows a doc version in a rendered header ends the doc version. */
  lemma DocVersionEndOf(v: string, dv: string, dp: string, cv: string, rest: string, x: string)
    requires '\n' !in dp && ' ' !in cv && CliVersionEnd(rest)
    requires x == " " + dp + CliMarker + cv + rest
    ensures DocVersionEnd(x)
  {
    DocPathScanOf(" ", dp, cv, rest, x);
  }

  /** The doc version is read up to the first space. */
  lemma DocVersionStep(v: string, pre: string, dv: string, dp: string, cv: string, rest: string, s: string)
    requires ' ' !in dv && '\n' !in dp && ' ' !in cv && CliVersionEnd(rest)
    requires s == pre + dv + " " + dp + CliMarker + cv + rest
    ensures HeaderDocVersion(v, s, |pre|) == Some(HeaderFields(v, dv, dp, cv))
  {
    var x := " " + dp + CliMarker + cv + rest;
    assert s == pre + dv + x by {
      Group5(pre + dv, " ", dp, CliMarker, cv, rest);
    }
    DocVersionEndOf(v, dv, dp, cv, rest, x);
    ScanPast(pre, dv, x, DocVersionEnd, true, ' ');
    SliceOfConcat(pre, dv, x);
    DocPathStep(v, dv, pre + dv + " ", dp, cv, rest);
  }

  /** MatchHeader unfolded once the release version is read. */
  lemma HeaderUnfold(s: string, v: string, t: string)
    requires HasPrefix(s, HeaderStart) && ParseVersion(s[|HeaderStart|..]) == Some((v, t))
    ensures MatchHeader(s) == HeaderAfterVersion(v, t)
  {
  }

  /** The part of a rendered header after the release version. */
  lemma HeaderAfterVersionOf(v: string, dv: string, dp: string, cv: string, rest: string)
    requires ' ' !in dv && '\n' !in dp && ' ' !in cv && CliVersionEnd(rest)
    ensures HeaderAfterVersion(v, HeaderMid + dv + " " + dp + CliMarker + cv + rest) == Some(HeaderFields(v, dv, dp, cv))
  {
    var t := HeaderMid + dv + " " + dp + CliMarker + cv + rest;
    assert HasPrefix(t, HeaderMid) by {
      Group5(HeaderMid, dv, " ", dp, CliMarker, cv);
      Group3(HeaderMid, dv + " " + dp + CliMarker, cv, rest);
      Group5(HeaderMid, dv, " ", dp, CliMarker, cv + rest);
      PrefixOfConcat(HeaderMid, dv + " " + dp + CliMarker + (cv + rest));
    }
    DocVersionStep(v, HeaderMid, dv, dp, cv, rest, t);
  }

  lemma HeaderGroups(h: string, v: string, m: string, dv: string, dp: string, cm: string, cv: string, u: string, tail: string)
    ensures h + v + m + dv + " " + dp + cm + cv + " " + u + tail
         == h + (v + (m + dv + " " + dp + cm + cv + (" " + u + tail)))
  {
    var rest := " " + u + tail;
    var t := m + dv + " " + dp + cm + cv + rest;
    Group3(h + v + m + dv + " " + dp + cm + cv, " ", u, tail);
    Group5(h + v, m, dv, " ", dp, cm + cv + rest);
    Group3(h + v + m + dv + " " + dp, cm, cv, rest);
    Group3(m, dv, " ", dp);
    Group3(h + v + m + dv, " ", dp, cm + cv + rest);
    Assoc(h, v, t);
  }

  /** A rendered header followed by `tail`, grouped the way the header pattern reads it. */
  lemma HeaderSplit(r: ReleasesInfo, tail: string)
    ensures Header(r) + tail == HeaderStart + (r.ReleaseVersion + (HeaderMid + r.OpenAPIDocVersion + " " + r.OpenAPIDocPath
      + CliMarker + r.SpeakeasyVersion + (" " + CliUrl + tail)))
  {
    HeaderGroups(HeaderStart, r.ReleaseVersion, HeaderMid, r.OpenAPIDocVersion, r.OpenAPIDocPath, CliMarker,
      r.SpeakeasyVersion, CliUrl, tail);
  }

  lemma MatchHeaderText(s: string, v: string, dv: string, dp: string, cv: string, rest: string)
    requires IsVersion(v) && ' ' !in dv && '\n' !in dp && ' ' !in cv && CliVersionEnd(rest)
    requires s == HeaderStart + (v + (HeaderMid + dv + " " + dp + CliMarker + cv + rest))
    ensures MatchHeader(s) == Some(HeaderFields(v, dv, dp, cv))
  {
    var t := HeaderMid + dv + " " + dp + CliMarker + cv + rest;
    assert ParseVersion(s[|HeaderStart|..]) == Some((v, t)) && HasPrefix(s, HeaderStart) by {
      PrefixOfConcat(HeaderStart, v + t);
      Group5(HeaderMid, dv, " ", dp, CliMarker, cv);
      ParseVersionComplete(v, t);
    }
    HeaderUnfold(s, v, t);
    HeaderAfterVersionOf(v, dv, dp, cv, rest);
  }

  /** The header pattern reads back the four header fields from a rendered
      header, whatever follows it. */
  lemma MatchHeaderOf(r: ReleasesInfo, tail: string)
    requires IsVersion(r.ReleaseVersion)
    requires ' ' !in r.OpenAPIDocVersion && '\n' !in r.OpenAPIDocPath && ' ' !in r.SpeakeasyVersion
    ensures MatchHeader(Header(r) + tail) ==
      Some(HeaderFields(r.ReleaseVersion, r.OpenAPIDocVersion, r.OpenAPIDocPath, r.SpeakeasyVersion))
  {
    HeaderSplit(r, tail);
    MatchHeaderText(Header(r) + tail, r.ReleaseVersion, r.OpenAPIDocVersion, r.OpenAPIDocPath, r.SpeakeasyVersion,
      " " + CliUrl + tail);
  }
}
