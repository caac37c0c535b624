/**
 * The breadcrumb trail of the top navigation bar: the pathname is split on `/`, empty pieces
 * are dropped, and each remaining segment becomes a link to the prefix of the path that ends
 * with it, labelled with the segment's first letter upper-cased. A fixed "Home" link to `/`
 * always precedes the trail.
 */
module TopNav {
  import opened Text

  datatype Crumb = Crumb(href: string, text: string)

  /** `pathname.split("/").filter(Boolean)`. */
  function Segments(pathname: string): (segs: seq<string>)
    ensures forall i :: 0 <= i < |segs| ==> segs[i] != "" && '/' !in segs[i]
  {
    NonEmpty(Split(pathname, '/'))
  }

  /** `/${pathSegments.slice(0, index + 1).join("/")}`. */
  function Href(segs: seq<string>, index: nat): string
    requires index < |segs|
  {
    "/" + Join(segs[..index + 1], "/")
  }

  /** `segment.charAt(0).toUpperCase() + segment.slice(1)`, with ASCII upper-casing. */
  function Label(segment: string): (shown: string)
    ensures |shown| == |segment|
    ensures forall i :: 1 <= i < |segment| ==> shown[i] == segment[i]
    ensures segment != "" ==> shown[0] == UpperAscii(segment[0])
  {
    if segment == "" then "" else [UpperAscii(segment[0])] + segment[1..]
  }

  /** The crumbs after "Home": one per segment, in segment order. */
  function Breadcrumbs(pathname: string): (crumbs: seq<Crumb>)
    ensures |crumbs| == |Segments(pathname)|
    ensures forall i :: 0 <= i < |crumbs| ==>
      crumbs[i] == Crumb(Href(Segments(pathname), i), Label(Segments(pathname)[i]))
  {
    var segs := Segments(pathname);
    seq(|segs|, i requires 0 <= i < |segs| => Crumb(Href(segs, i), Label(segs[i])))
  }

  /** Only the Home link is shown exactly when the pathname has no character other than `/` (`/` and `""` among them). */
  lemma {:induction false} NoCrumbsIffOnlySlashes(pathname: string)
    ensures Breadcrumbs(pathname) == [] <==> forall i :: 0 <= i < |pathname| ==> pathname[i] == '/'
  {
    if pathname != [] {
      var rest := Split(pathname[1..], '/');
      NoCrumbsIffOnlySlashes(pathname[1..]);
      if pathname[0] == '/' {
        assert Split(pathname, '/')[1..] == rest;
        assert forall i :: 1 <= i < |pathname| ==> pathname[i] == pathname[1..][i - 1];
      } else {
        var pieces := Split(pathname, '/');
        assert pieces[0] != "";
        assert pieces == [pieces[0]] + pieces[1..];
      }
    }
  }

  /** Each crumb's href extends the previous one by `/` and the next segment. */
  lemma HrefStep(segs: seq<string>, index: nat)
    requires index + 1 < |segs|
    ensures Href(segs, index + 1) == Href(segs, index) + "/" + segs[index + 1]
  {
    assert segs[..index + 2] == segs[..index + 1] + [segs[index + 1]];
    JoinSnoc(segs[..index + 1], segs[index + 1], "/");
  }

  /** Re-splitting a crumb's href with the same rule gives exactly the segments up to that crumb. */
  lemma HrefRoundTrip(pathname: string, index: nat)
    requires index < |Segments(pathname)|
    ensures Segments(Href(Segments(pathname), index)) == Segments(pathname)[..index + 1]
  {
    var prefix := Segments(pathname)[..index + 1];
    var joined := Join(prefix, "/");
    SplitJoin(prefix, '/');
    assert Split("/" + joined, '/') == [""] + Split(joined, '/') by {
      assert ("/" + joined)[1..] == joined;
    }
    NonEmptyOfNonEmpty(prefix);
    assert NonEmpty([""] + prefix) == prefix;
  }

  /** A pathname in canonical form: a leading `/`, at least one other character, no `//` and no trailing `/`. */
  predicate Canonical(pathname: string)
  {
    && |pathname| >= 2
    && pathname[0] == '/'
    && pathname[|pathname| - 1] != '/'
    && forall i :: 0 <= i < |pathname| - 1 ==> !(pathname[i] == '/' && pathname[i + 1] == '/')
  }

  /** Splitting a string with no leading, trailing or doubled `/` gives only non-empty pieces. */
  lemma {:induction false} SplitNoEmptyPiece(q: string)
    requires q != [] && q[0] != '/' && q[|q| - 1] != '/'
    requires forall i :: 0 <= i < |q| - 1 ==> !(q[i] == '/' && q[i + 1] == '/')
    ensures forall i :: 0 <= i < |Split(q, '/')| ==> Split(q, '/')[i] != ""
  {
    var rest := Split(q[1..], '/');
    if |q| == 1 {
    } else if q[1] == '/' {
      assert q[1..][1..] == q[2..];
      assert |q| >= 3 && q[2] != '/';
      SplitNoEmptyPiece(q[2..]);
      assert rest == [""] + Split(q[2..], '/');
    } else {
      SplitNoEmptyPiece(q[1..]);
    }
  }

  /** For a canonical pathname the last crumb links to the pathname itself. */
  lemma LastHrefIsPathname(pathname: string)
    requires Canonical(pathname)
    ensures |Segments(pathname)| >= 1
    ensures Href(Segments(pathname), |Segments(pathname)| - 1) == pathname
  {
    var q := pathname[1..];
    assert Split(pathname, '/') == [""] + Split(q, '/');
    SplitNoEmptyPiece(q);
    NonEmptyOfNonEmpty(Split(q, '/'));
    assert Segments(pathname) == Split(q, '/');
    JoinSplit(q, '/');
    var segs := Segments(pathname);
    assert segs[..|segs|] == segs;
    assert pathname == "/" + q;
  }

  /** Applying the label rule twice changes nothing more. */
  lemma LabelIdempotent(segment: string)
    ensures Label(Label(segment)) == Label(segment)
  {
  }
}
