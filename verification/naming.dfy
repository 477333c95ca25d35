/** The names and text the handler derives before posting: the image's file
    name cut from its URL (src/main.rs:71), the posted file's name
    (src/main.rs:105) and the caption crediting the author (src/main.rs:107). */
module Naming {
  import opened Wrappers

  /** Position of the last occurrence of `c` in `s`. */
  function LastIndexOf(s: string, c: char): (r: Option<nat>)
    ensures r.None? <==> c !in s
    ensures r.Some? ==> r.value < |s| && s[r.value] == c
    ensures r.Some? ==> c !in s[r.value + 1..]
    decreases |s|
  {
    if |s| == 0 then None
    else if s[|s| - 1] == c then Some(|s| - 1)
    else
      var r := LastIndexOf(s[..|s| - 1], c);
      assert r.Some? ==> s[r.value + 1..] == s[..|s| - 1][r.value + 1..] + [s[|s| - 1]];
      r
  }

  /** Raised where the source unwraps the search for a '/' in the URL. */
  datatype NameError = NoSlashInUrl

  /** The URL's final path segment: everything after its last '/'. */
  function ImageName(url: string): (r: Result<string, NameError>)
    ensures r.Err? <==> '/' !in url
    ensures r.Ok? ==> '/' !in r.value
    ensures r.Ok? ==> |r.value| < |url| &&
                      url == url[..|url| - |r.value|] + r.value &&
                      url[|url| - |r.value| - 1] == '/'
  {
    match LastIndexOf(url, '/')
    case None => Err(NoSlashInUrl)
    case Some(i) =>
      assert url == url[..i + 1] + url[i + 1..];
      Ok(url[i + 1..])
  }

  /** Any split of a URL into a part ending in '/' and a part free of '/'
      is the split `ImageName` makes. */
  lemma ImageNameIsLastSegment(prefix: string, name: string)
    requires |prefix| > 0 && prefix[|prefix| - 1] == '/'
    requires '/' !in name
    ensures ImageName(prefix + name) == Ok(name)
  {
    var url := prefix + name;
    assert url[|prefix| - 1] == '/';
  }

  const RotatedPrefix: string := "ROTATED_"
  const CaptionPrefix: string := "Rotated image from "

  /** The name of the posted file. */
  function RotatedName(name: string): (r: string)
    ensures |r| == |RotatedPrefix| + |name|
    ensures r[..|RotatedPrefix|] == RotatedPrefix
    ensures r[|RotatedPrefix|..] == name
    ensures '/' !in name ==> '/' !in r
  {
    RotatedPrefix + name
  }

  /** Distinct original names never collide once prefixed. */
  lemma RotatedNameIsInjective(a: string, b: string)
    requires RotatedName(a) == RotatedName(b)
    ensures a == b
  {
  }

  /** Decimal digits of `n`, most significant first, with no leading zero. */
  function Digits(n: nat): (r: string)
    ensures |r| > 0
    ensures forall k :: 0 <= k < |r| ==> '0' <= r[k] <= '9'
    decreases n
  {
    if n < 10 then [DigitChar(n)] else Digits(n / 10) + [DigitChar(n % 10)]
  }

  function DigitChar(d: nat): (c: char)
    requires d < 10
    ensures '0' <= c <= '9'
  {
    ['0', '1', '2', '3', '4', '5', '6', '7', '8', '9'][d]
  }

  function DigitValue(c: char): (d: nat)
    requires '0' <= c <= '9'
    ensures d < 10
  {
    (c as int - '0' as int) as nat
  }

  /** Reads a string of decimal digits back into a number. */
  function ParseDigits(s: string): nat
    requires forall k :: 0 <= k < |s| ==> '0' <= s[k] <= '9'
    decreases |s|
  {
    if |s| == 0 then 0 else ParseDigits(s[..|s| - 1]) * 10 + DigitValue(s[|s| - 1])
  }

  lemma {:induction false} ParseDigitsOfDigits(n: nat)
    ensures ParseDigits(Digits(n)) == n
    decreases n
  {
    var s := Digits(n);
    if n < 10 {
      assert s[..0] == [];
    } else {
      ParseDigitsOfDigits(n / 10);
      assert s[..|s| - 1] == Digits(n / 10);
    }
  }

  /** How the platform renders a user mention inside message text. */
  function MentionText(user: nat): (r: string)
    ensures |r| >= 4 && r[..2] == "<@" && r[|r| - 1] == '>'
    ensures r[2..|r| - 1] == Digits(user)
  {
    "<@" + Digits(user) + ">"
  }

  /** The caption of the repost, naming the original author. */
  function Caption(user: nat): (r: string)
    ensures |r| > |CaptionPrefix| && r[..|CaptionPrefix|] == CaptionPrefix
    ensures r[|CaptionPrefix|..] == MentionText(user)
  {
    CaptionPrefix + MentionText(user)
  }

  /** The caption determines the author: distinct authors are never
      credited with the same caption. */
  lemma CaptionIdentifiesAuthor(a: nat, b: nat)
    requires Caption(a) == Caption(b)
    ensures a == b
  {
    var da, db := Digits(a), Digits(b);
    assert Caption(a) == CaptionPrefix + "<@" + da + ">";
    assert Caption(b) == CaptionPrefix + "<@" + db + ">";
    var p := |CaptionPrefix| + 2;
    assert da == Caption(a)[p..|Caption(a)| - 1];
    assert db == Caption(b)[p..|Caption(b)| - 1];
    ParseDigitsOfDigits(a);
    ParseDigitsOfDigits(b);
  }
}
