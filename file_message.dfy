/**
 * A file attachment in the message list (frontend/src/components/chat/file-message.tsx):
 * the absolute URL of the stored file, the test for an image by the URL's ending, and the
 * two ways the attachment is shown.
 */
module FileMessage {
  import opened Text
  import opened FileUpload

  /** The backend's origin, put in front of the stored file's path. */
  const Origin: string := "http://localhost:8000"

  /** `fullUrl`: the origin followed by the file's URL, unchanged. */
  function FullUrl(fileUrl: string): (r: string)
    ensures StartsWith(r, Origin) && r[|Origin|..] == fileUrl
  {
    Origin + fileUrl
  }

  /** Distinct file URLs give distinct full URLs. */
  lemma FullUrlInjective(a: string, b: string)
    ensures FullUrl(a) == FullUrl(b) <==> a == b
  {
    if FullUrl(a) == FullUrl(b) {
      assert FullUrl(a)[|Origin|..] == FullUrl(b)[|Origin|..];
    }
  }

  /**
   * `isImage`: the URL ends, ignoring ASCII case, with a dot and one of the image
   * extensions; the pattern is anchored at the end of the whole URL.
   */
  predicate IsImage(fileUrl: string)
  {
    exists e | e in ImageExtensions :: EndsWith(Lower(fileUrl), "." + e)
  }

  /** Lowercasing a suffix is taking the suffix of the lowercased text. */
  lemma LowerSuffix(s: string, i: nat)
    requires i <= |s|
    ensures Lower(s[i..]) == Lower(s)[i..]
  {
  }

  /** Lowercasing maps a dot, and only a dot, to a dot. */
  lemma LowerCharDot(c: char)
    ensures LowerChar(c) == '.' <==> c == '.'
  {
  }

  /** A name with a dot ends, lowercased, with a dot and its extension. */
  lemma EndsWithExtension(u: string)
    requires '.' in u
    ensures EndsWith(Lower(u), "." + Extension(u))
  {
    var ext := Extension(u);
    var p := |u| - |ext| - 1;
    LowerSuffix(u, p + 1);
    DotThenSuffix(Lower(u), p, ext);
  }

  /** A text with a dot at `p` followed by exactly `e` ends with the dot and `e`. */
  lemma DotThenSuffix(s: string, p: nat, e: string)
    requires p < |s| && s[p] == '.' && s[p + 1..] == e
    ensures EndsWith(s, "." + e)
  {
    assert s[p..] == [s[p]] + s[p + 1..];
  }

  /** When `s[p]` is the last dot of `s`, the text after the last dot starts right after it. */
  lemma AfterLastDotAt(s: string, p: nat)
    requires p < |s| && s[p] == '.'
    requires forall k :: p < k < |s| ==> s[k] != '.'
    ensures AfterLast(s, '.') == s[p + 1..]
  {
  }

  /** Where `s` ends with `t`, its character at `k` is the matching character of `t`. */
  lemma EndingChar(s: string, t: string, k: int)
    requires EndsWith(s, t) && |s| - |t| <= k < |s|
    ensures s[k] == t[k - (|s| - |t|)]
  {
    assert s[|s| - |t|..][k - (|s| - |t|)] == s[k];
  }

  /** Where a name ends, lowercased, with a dot and `e`, its character at `k` is the dot or a character of `e`. */
  lemma CharOfEnding(u: string, e: string, k: int)
    requires EndsWith(Lower(u), "." + e) && |u| - |e| - 1 <= k < |u|
    ensures LowerChar(u[k]) == ("." + e)[k - (|u| - |e| - 1)]
  {
    EndingChar(Lower(u), "." + e, k);
  }

  /** In a name that ends, lowercased, with a dot and a dot-free `e`, that dot is the last one. */
  lemma LastDotOfEnding(u: string, e: string)
    requires '.' !in e && EndsWith(Lower(u), "." + e)
    ensures u[|u| - |e| - 1] == '.'
    ensures forall k :: |u| - |e| - 1 < k < |u| ==> u[k] != '.'
  {
    var p := |u| - |e| - 1;
    CharOfEnding(u, e, p);
    LowerCharDot(u[p]);
    forall k | p < k < |u|
      ensures u[k] != '.'
    {
      CharOfEnding(u, e, k);
      assert ("." + e)[k - p] == e[k - p - 1];
      LowerCharDot(u[k]);
    }
  }

  /** A name that ends, lowercased, with a dot and a dot-free `e` has `e` as its extension. */
  lemma ExtensionOfEnding(u: string, e: string)
    requires '.' !in e && EndsWith(Lower(u), "." + e)
    ensures '.' in u && Extension(u) == e
  {
    var p := |u| - |e| - 1;
    LastDotOfEnding(u, e);
    AfterLastDotAt(u, p);
    LowerSuffix(u, p + 1);
    assert Lower(u)[p + 1..] == e by {
      assert Lower(u)[p..] == "." + e;
    }
    assert Lower(AfterLast(u, '.')) == e;
  }

  /**
   * The image test agrees with the attachment button's extension rule, except that a URL
   * without any dot is never an image: `isImage` holds exactly when the URL has a dot and
   * its extension is an image extension.
   */
  lemma IsImageIffImageExtension(u: string)
    ensures IsImage(u) <==> '.' in u && Extension(u) in ImageExtensions
  {
    if '.' in u && Extension(u) in ImageExtensions {
      EndsWithExtension(u);
    }
    if IsImage(u) {
      var e :| e in ImageExtensions && EndsWith(Lower(u), "." + e);
      ExtensionOfEnding(u, e);
    }
  }

  /** The extension of a name ending in a dot and a dot-free `ext` is `ext`, lowercased. */
  lemma ExtensionOfSuffix(base: string, ext: string)
    requires '.' !in ext
    ensures Extension(base + "." + ext) == Lower(ext)
  {
    var u := base + "." + ext;
    assert u[|base|] == '.';
    assert forall k :: |base| < k < |u| ==> u[k] == ext[k - |base| - 1];
    AfterLastDotAt(u, |base|);
    assert u[|base| + 1..] == ext;
  }

  /** The case of the ending does not matter. */
  lemma UppercaseImageUrl(base: string)
    ensures IsImage(base + ".PNG")
  {
    var u := base + ".PNG";
    assert u == base + "." + "PNG";
    ExtensionOfSuffix(base, "PNG");
    assert Extension(u) == "png" by {
      assert Lower("PNG") == "png";
    }
    assert u[|base|] == '.';
    assert "png" == ImageExtensions[2];
    IsImageIffImageExtension(u);
  }

  /** The ending is what counts: an image extension followed by another one is not an image. */
  lemma InnerImageExtensionIgnored(base: string)
    ensures !IsImage(base + ".png.txt")
  {
    var u, named := base + ".png.txt", base + ".png";
    assert u == named + "." + "txt";
    ExtensionOfSuffix(named, "txt");
    assert Extension(u) == "txt" by {
      assert Lower("txt") == "txt";
    }
    assert "txt" !in ImageExtensions;
    IsImageIffImageExtension(u);
  }

  /** Without a dot before it, an image extension at the end does not count. */
  lemma DotRequired()
    ensures !IsImage("/uploads/png")
  {
    var u := "/uploads/png";
    assert '.' !in u;
    IsImageIffImageExtension(u);
  }

  /**
   * How the attachment is shown: an image opens the full URL and shows it with the file
   * name as its text and caption; anything else is a download link saving under the file
   * name, styled for the user's own messages or for the other side's.
   */
  datatype FileView =
    | ImageLink(href: string, src: string, alt: string, caption: string)
    | DownloadLink(href: string, download: string, title: string, mine: bool)

  function Render(fileUrl: string, fileName: string, isMe: bool): (r: FileView)
    ensures r.ImageLink? <==> IsImage(fileUrl)
    ensures r.href == FullUrl(fileUrl)
    ensures r.ImageLink? ==> r.src == r.href && r.alt == fileName && r.caption == fileName
    ensures r.DownloadLink? ==> r.download == fileName && r.title == fileName && r.mine == isMe
  {
    var full := FullUrl(fileUrl);
    if IsImage(fileUrl) then ImageLink(full, full, fileName, fileName)
    else DownloadLink(full, fileName, fileName, isMe)
  }
}
