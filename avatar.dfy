/** The generated-initials avatar: the size table, the corner radius chosen
    from the shape, the options handed to the avatar generator, the CSS
    class list of the image and the defaults of the component's props.
    CSS-module class names are modelled by their keys. */
module Avatar {
  import opened Common

  datatype Size = XS | SM | MD | LG | XL
  datatype Shape = Circle | Square | Rounded

  /** Position of a size in the order xs < sm < md < lg < xl. */
  function Rank(s: Size): nat {
    match s
    case XS => 0
    case SM => 1
    case MD => 2
    case LG => 3
    case XL => 4
  }

  /** `sizeMap`: the pixel size of each size key. */
  function Pixels(s: Size): nat {
    match s
    case XS => 44
    case SM => 64
    case MD => 96
    case LG => 160
    case XL => 200
  }

  /** The pixel size grows strictly with the size key, so distinct keys
      give distinct pixel sizes. */
  lemma PixelsStrictlyIncreasing(a: Size, b: Size)
    ensures Rank(a) < Rank(b) <==> Pixels(a) < Pixels(b)
    ensures a == b <==> Pixels(a) == Pixels(b)
  {
  }

  /** Corner radius passed to the generator: 50 for a circle, 8 for a
      rounded square, 0 for a square. */
  function Radius(shape: Shape): (r: nat)
    ensures r == 50 <==> shape == Circle
    ensures r == 8 <==> shape == Rounded
    ensures r == 0 <==> shape == Square
  {
    match shape
    case Circle => 50
    case Rounded => 8
    case Square => 0
  }

  /** The options object given to the initials generator. */
  datatype GeneratorOptions = GeneratorOptions(size: nat, seed: string, radius: nat)

  function Options(name: string, size: Size, shape: Shape): (r: GeneratorOptions)
    ensures r.seed == name
    ensures r.size == Pixels(size) && r.radius == Radius(shape)
  {
    GeneratorOptions(Pixels(size), name, Radius(shape))
  }

  /** The generated image: the generator itself is a parameter, so the image
      is whatever it yields for the options built from the props. */
  function Image(generate: GeneratorOptions -> string, name: string, size: Size, shape: Shape): string {
    generate(Options(name, size, shape))
  }

  /** The image depends only on the name, the mapped pixel size and the
      radius: two prop sets that agree on those give the same image, and
      the options determine the name, size key and shape back. */
  lemma ImageDeterminedByOptions(generate: GeneratorOptions -> string,
                                 n1: string, s1: Size, h1: Shape,
                                 n2: string, s2: Size, h2: Shape)
    ensures Options(n1, s1, h1) == Options(n2, s2, h2) <==> n1 == n2 && s1 == s2 && h1 == h2
    ensures n1 == n2 && Pixels(s1) == Pixels(s2) && Radius(h1) == Radius(h2) ==>
              Image(generate, n1, s1, h1) == Image(generate, n2, s2, h2)
  {
    PixelsStrictlyIncreasing(s1, s2);
  }

  /** The size key as written in the props. */
  function Key(s: Size): string {
    match s
    case XS => "xs"
    case SM => "sm"
    case MD => "md"
    case LG => "lg"
    case XL => "xl"
  }

  /** `toUpperCase` of one ASCII character. */
  function Upper(c: char): char {
    if 'a' <= c <= 'z' then (c as int - 32) as char else c
  }

  /** `s.charAt(0).toUpperCase() + s.slice(1)` on ASCII text. */
  function Capitalize(s: string): (r: string)
    ensures |r| == |s|
    ensures |s| > 0 ==> r[0] == Upper(s[0]) && r[1..] == s[1..]
  {
    if s == [] then [] else [Upper(s[0])] + s[1..]
  }

  /** The size class, `avatar` followed by the capitalised size key. */
  function SizeClass(s: Size): (r: string)
    ensures |r| == 8 && r[..6] == "avatar"
    ensures 'A' <= r[6] <= 'Z' && 'a' <= r[7] <= 'z'
  {
    "avatar" + Capitalize(Key(s))
  }

  lemma SizeClassesDistinct(a: Size, b: Size)
    ensures SizeClass(a) == SizeClass(b) <==> a == b
  {
    if a != b {
      assert SizeClass(a)[6..] != SizeClass(b)[6..];
    }
  }

  /** `getAvatarClassName` as a list of class tokens: the base class, the
      size class, then the shape class for a square or rounded avatar, then
      the custom style when one is given (an empty string counts as none). */
  function ClassTokens(size: Size, shape: Shape, avatarStyle: Option<string>): (r: seq<string>)
    ensures |r| >= 2 && r[0] == "avatar" && r[1] == SizeClass(size)
    ensures |r| == 2 + (if shape == Circle then 0 else 1) + (if Truthy(avatarStyle) then 1 else 0)
    ensures var generated := if Truthy(avatarStyle) then r[..|r| - 1] else r;
            && ("avatarSquare" in generated <==> shape == Square)
            && ("avatarRounded" in generated <==> shape == Rounded)
    ensures Truthy(avatarStyle) ==> r[|r| - 1] == avatarStyle.value
  {
    var base := ["avatar", SizeClass(size)];
    var withSquare := if shape.Square? then base + ["avatarSquare"] else base;
    var withRounded := if shape.Rounded? then withSquare + ["avatarRounded"] else withSquare;
    if Truthy(avatarStyle) then withRounded + [avatarStyle.value] else withRounded
  }

  /** Tokens joined by single spaces. */
  function JoinSpaced(tokens: seq<string>): string {
    if |tokens| == 0 then ""
    else if |tokens| == 1 then tokens[0]
    else tokens[0] + " " + JoinSpaced(tokens[1..])
  }

  /** A joined list starts with its first token. */
  lemma {:induction false} JoinSpacedStartsWithFirst(tokens: seq<string>)
    requires |tokens| > 0
    ensures tokens[0] <= JoinSpaced(tokens)
  {
  }

  /** The class attribute of the avatar image: it starts with the base class
      and the size class. */
  function ClassName(size: Size, shape: Shape, avatarStyle: Option<string>): (r: string)
    ensures "avatar " + SizeClass(size) <= r
  {
    var tokens := ClassTokens(size, shape, avatarStyle);
    JoinSpacedStartsWithFirst(tokens[1..]);
    PrefixAppend("avatar ", SizeClass(size), JoinSpaced(tokens[1..]));
    JoinSpaced(tokens)
  }

  lemma PrefixAppend(a: string, b: string, c: string)
    requires b <= c
    ensures a + b <= a + c
  {
    assert (a + c)[..|a + b|] == a + b;
  }

  /** `avatarSquare` and `avatarRounded` are never both present, unless the
      custom style itself is one of them. */
  lemma NeverSquareAndRounded(size: Size, shape: Shape, avatarStyle: Option<string>)
    requires avatarStyle != Some("avatarSquare") && avatarStyle != Some("avatarRounded")
    ensures var r := ClassTokens(size, shape, avatarStyle);
            !("avatarSquare" in r && "avatarRounded" in r)
  {
    var r := ClassTokens(size, shape, avatarStyle);
    if Truthy(avatarStyle) {
      assert r == r[..|r| - 1] + [avatarStyle.value];
    }
  }

  /** The props after the destructuring defaults have been applied. */
  datatype Props = Props(name: string, alt: string, size: Size, shape: Shape,
                         avatarStyle: Option<string>, testId: string)

  /** Defaults: alt "Dummy Avatar", size md, shape circle; the test id is
      `dataTestId || ''`. */
  function WithDefaults(name: string, alt: Option<string>, size: Option<Size>, shape: Option<Shape>,
                        avatarStyle: Option<string>, dataTestId: Option<string>): (r: Props)
    ensures r.name == name && r.avatarStyle == avatarStyle
    ensures alt.None? ==> r.alt == "Dummy Avatar"
    ensures alt.Some? ==> r.alt == alt.value
    ensures size.None? ==> r.size == MD
    ensures size.Some? ==> r.size == size.value
    ensures shape.None? ==> r.shape == Circle
    ensures shape.Some? ==> r.shape == shape.value
    ensures r.testId == if Truthy(dataTestId) then dataTestId.value else ""
  {
    Props(name, alt.GetOr("Dummy Avatar"), size.GetOr(MD), shape.GetOr(Circle), avatarStyle,
          OrElse(dataTestId, Some("")).value)
  }
}
