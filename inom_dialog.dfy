/** The dialog that builds a map-sheet index (INOM) from a hemisphere, a
    latitude band, a longitude zone and, one per scale from 1:500k down to
    1:1k, the subdivisions chosen in nine combo boxes. The scale combo box
    says how many of the nine subdivisions the name has, and only those
    combo boxes are enabled. */
module InomDialog {
  import opened Text

  /** Number of subdivision combo boxes (1:500k, 1:250k, 1:100k, 1:50k,
      1:25k, 1:10k, 1:5k, 1:2k, 1:1k). */
  const ScaleCombos := 9

  /** A combo box: its entries and the current index (-1 when none). */
  datatype Combo = Combo(items: seq<string>, currentIndex: int)

  /** `itemText(currentIndex())`; Qt gives the empty string for an index
      outside the entries. */
  function CurrentText(c: Combo): (t: string)
    ensures 0 <= c.currentIndex < |c.items| ==> t == c.items[c.currentIndex]
    ensures !(0 <= c.currentIndex < |c.items|) ==> t == ""
  {
    if 0 <= c.currentIndex < |c.items| then c.items[c.currentIndex] else ""
  }

  /** The texts a list of combo boxes shows. */
  function TextsOf(combos: seq<Combo>): (t: seq<string>)
    ensures |t| == |combos|
    ensures forall k :: 0 <= k < |combos| ==> t[k] == CurrentText(combos[k])
  {
    seq(|combos|, k requires 0 <= k < |combos| => CurrentText(combos[k]))
  }

  /** The first `n` subdivisions, each after a '-'. */
  function Parts(texts: seq<string>, n: nat): string
    requires n <= |texts|
  {
    if n == 0 then "" else Parts(texts, n - 1) + "-" + texts[n - 1]
  }

  /** The number of subdivisions at scale index `scale`. */
  function Depth(scale: int): (d: nat)
    ensures d <= ScaleCombos
    ensures scale <= 0 ==> d == 0
    ensures 0 <= scale <= ScaleCombos ==> d == scale
    ensures scale > ScaleCombos ==> d == ScaleCombos
  {
    if scale <= 0 then 0 else if scale > ScaleCombos then ScaleCombos else scale
  }

  /** The INOM for the given texts at scale index `scale`: hemisphere and
      latitude, '-', longitude, then the first `Depth(scale)` subdivisions. */
  function Inom(hemisphere: string, latitude: string, longitude: string, texts: seq<string>, scale: int): string
    requires |texts| == ScaleCombos
  {
    hemisphere + latitude + "-" + longitude + Parts(texts, Depth(scale))
  }

  /** The smaller of `d` and `k`. */
  function Upto(d: nat, k: nat): nat
  {
    if d < k then d else k
  }

  /** One `if scale >= k` step of the INOM builder: with scale index
      `scale` at least `k`, the `k`-th subdivision is added after a '-'.
      The name grows from `Upto(Depth(scale), k - 1)` subdivisions to
      `Upto(Depth(scale), k)`. */
  function AddSubdivision(inom: string, scale: int, k: nat, texts: seq<string>, ghost base: string): (r: string)
    requires 1 <= k <= |texts| == ScaleCombos
    requires inom == base + Parts(texts, Upto(Depth(scale), k - 1))
    ensures r == base + Parts(texts, Upto(Depth(scale), k))
  {
    if scale >= k then inom + "-" + texts[k - 1] else inom
  }

  /** Fewer subdivisions give a prefix of the name with more of them. */
  lemma {:induction false} PartsPrefix(texts: seq<string>, n: nat, m: nat)
    requires n <= m <= |texts|
    ensures Parts(texts, n) <= Parts(texts, m)
    decreases m
  {
    if n < m {
      PartsPrefix(texts, n, m - 1);
    }
  }

  /** With the same selections, the INOM at one scale is a prefix of the
      INOM at the next. */
  lemma InomPrefix(hemisphere: string, latitude: string, longitude: string, texts: seq<string>, scale: int)
    requires |texts| == ScaleCombos
    ensures Inom(hemisphere, latitude, longitude, texts, scale) <= Inom(hemisphere, latitude, longitude, texts, scale + 1)
  {
    PartsPrefix(texts, Depth(scale), Depth(scale + 1));
  }

  /** Splitting off a last piece without the separator. */
  lemma {:induction false} SplitSnoc(x: string, c: char, b: string)
    requires c !in b
    ensures Split(x + [c] + b, c) == Split(x, c) + [b]
  {
    if |x| == 0 {
      assert x + [c] + b == [c] + b;
      assert ([c] + b)[1..] == b;
      SplitWithout(b, c);
    } else {
      assert (x + [c] + b)[1..] == x[1..] + [c] + b;
      SplitSnoc(x[1..], c, b);
      var rest := Split(x[1..], c);
      if x[0] != c {
        assert (rest + [b])[0] == rest[0];
        assert (rest + [b])[1..] == rest[1..] + [b];
      }
    }
  }

  /** The subdivisions come back out of the name: when no text holds a '-',
      splitting `Parts` at '-' gives an empty piece and then the texts. */
  lemma {:induction false} PartsPieces(texts: seq<string>, n: nat, x: string)
    requires n <= |texts|
    requires forall k :: 0 <= k < |texts| ==> '-' !in texts[k]
    ensures Split(x + Parts(texts, n), '-') == Split(x, '-') + texts[..n]
  {
    if n == 0 {
      assert x + Parts(texts, 0) == x;
    } else {
      PartsPieces(texts, n - 1, x);
      assert x + Parts(texts, n) == (x + Parts(texts, n - 1)) + ['-'] + texts[n - 1];
      SplitSnoc(x + Parts(texts, n - 1), '-', texts[n - 1]);
      assert texts[..n] == texts[..n - 1] + [texts[n - 1]];
    }
  }

  /** Reading the INOM back: when no text holds a '-', its '-'-separated
      pieces are hemisphere and latitude, the longitude, and the chosen
      subdivisions in scale order. */
  lemma InomPieces(hemisphere: string, latitude: string, longitude: string, texts: seq<string>, scale: int)
    requires |texts| == ScaleCombos
    requires '-' !in hemisphere + latitude && '-' !in longitude
    requires forall k :: 0 <= k < |texts| ==> '-' !in texts[k]
    ensures Split(Inom(hemisphere, latitude, longitude, texts, scale), '-') ==
            [hemisphere + latitude, longitude] + texts[..Depth(scale)]
  {
    var hl := hemisphere + latitude;
    var base := hl + "-" + longitude;
    SplitAroundOne(hl, '-', longitude);
    assert base == hl + ['-'] + longitude;
    PartsPieces(texts, Depth(scale), base);
    assert Inom(hemisphere, latitude, longitude, texts, scale) == base + Parts(texts, Depth(scale));
  }

  /** The dialog: the hemisphere, latitude, longitude and scale combo boxes,
      the nine subdivision combo boxes (`listaCombos`) with their enabled
      flags, the `inom` field and the text of the line edit showing it. */
  class CreateInomDialog {
    var hemisphere: Combo
    var latitude: Combo
    var longitude: Combo
    var scale: Combo
    var scaleCombos: seq<Combo>
    const enabled: array<bool>
    var inom: string
    var lineEditText: string

    ghost predicate Valid()
      reads this
    {
      |scaleCombos| == ScaleCombos && enabled.Length == ScaleCombos
    }

    /** `__init__`: every subdivision combo box disabled and the INOM built
        from the form's selections. */
    constructor(hemisphere: Combo, latitude: Combo, longitude: Combo, scale: Combo, scaleCombos: seq<Combo>)
      requires |scaleCombos| == ScaleCombos
      ensures Valid() && fresh(enabled)
      ensures this.hemisphere == hemisphere && this.latitude == latitude && this.longitude == longitude
      ensures this.scale == scale && this.scaleCombos == scaleCombos
      ensures forall k :: 0 <= k < ScaleCombos ==> !enabled[k]
      ensures inom == lineEditText == Inom(CurrentText(hemisphere), CurrentText(latitude), CurrentText(longitude),
                                           TextsOf(scaleCombos), scale.currentIndex)
    {
      this.hemisphere := hemisphere;
      this.latitude := latitude;
      this.longitude := longitude;
      this.scale := scale;
      this.scaleCombos := scaleCombos;
      enabled := new bool[ScaleCombos];
      inom := "";
      lineEditText := "";
      new;
      var _ := Disable(0);
      inom := "";
      ConstructInom();
    }

    /** `disable(min)`: exactly the first `min` subdivision combo boxes
        enabled; a `min` past the nine raises `IndexError` once all nine are
        enabled. */
    method Disable(min: int) returns (indexError: bool)
      requires Valid()
      modifies enabled
      ensures forall k :: 0 <= k < ScaleCombos ==> enabled[k] == (k < min)
      ensures indexError <==> min > ScaleCombos
    {
      for i := 0 to ScaleCombos
        invariant forall k :: 0 <= k < i ==> !enabled[k]
      {
        enabled[i] := false;
      }
      var i := 0;
      while i < min
        invariant 0 <= i <= ScaleCombos
        invariant i <= (if min < 0 then 0 else min)
        invariant forall k :: 0 <= k < ScaleCombos ==> enabled[k] == (k < i)
      {
        if i >= ScaleCombos {
          return true;
        }
        enabled[i] := true;
        i := i + 1;
      }
      return false;
    }

    /** `on_scaleComboBox_currentIndexChanged(i)`: the scale combo box now
        at `i`; the combo boxes are enabled for it, and then, unless that
        raised, the INOM is rebuilt. */
    method OnScaleComboBoxCurrentIndexChanged(i: int) returns (indexError: bool)
      requires Valid()
      modifies this, enabled
      ensures Valid()
      ensures scale == old(scale).(currentIndex := i)
      ensures hemisphere == old(hemisphere) && latitude == old(latitude) && longitude == old(longitude)
      ensures scaleCombos == old(scaleCombos)
      ensures forall k :: 0 <= k < ScaleCombos ==> enabled[k] == (k < i)
      ensures indexError <==> i > ScaleCombos
      ensures indexError ==> inom == old(inom) && lineEditText == old(lineEditText)
      ensures !indexError ==>
                inom == lineEditText == Inom(CurrentText(hemisphere), CurrentText(latitude), CurrentText(longitude), TextsOf(scaleCombos), i)
    {
      scale := scale.(currentIndex := i);
      indexError := Disable(i);
      if !indexError {
        ConstructInom();
      }
    }

    /** `constructINOM`: the base, then one subdivision for each scale step
        up to the chosen one; the line edit shows the result. */
    method ConstructInom()
      requires Valid()
      modifies this
      ensures Valid()
      ensures hemisphere == old(hemisphere) && latitude == old(latitude) && longitude == old(longitude)
      ensures scale == old(scale) && scaleCombos == old(scaleCombos)
      ensures inom == lineEditText ==
                Inom(CurrentText(hemisphere), CurrentText(latitude), CurrentText(longitude), TextsOf(scaleCombos), scale.currentIndex)
    {
      var texts := TextsOf(scaleCombos);
      inom := CurrentText(hemisphere) + CurrentText(latitude) + "-" + CurrentText(longitude);
      ghost var base := inom;
      var s := scale.currentIndex;
      if s == 0 {
        lineEditText := inom;
        return;
      }
      inom := AddSubdivision(inom, s, 1, texts, base);
      inom := AddSubdivision(inom, s, 2, texts, base);
      inom := AddSubdivision(inom, s, 3, texts, base);
      inom := AddSubdivision(inom, s, 4, texts, base);
      inom := AddSubdivision(inom, s, 5, texts, base);
      inom := AddSubdivision(inom, s, 6, texts, base);
      inom := AddSubdivision(inom, s, 7, texts, base);
      inom := AddSubdivision(inom, s, 8, texts, base);
      inom := AddSubdivision(inom, s, 9, texts, base);
      lineEditText := inom;
    }

    /** `getInom`. */
    function GetInom(): (r: string)
      reads this
      ensures r == inom
    {
      inom
    }
  }
}
