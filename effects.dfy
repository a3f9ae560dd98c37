/** The simulation room's effect parser (`module/simulation_room/effect.py`):
    `build_effect_struct` groups the OCR text items of an effect list into
    records of rarity, effect name, position and the enemy genre the effect
    applies to; `adjust_position` gives the area cropped for that genre. */
module Effects {
  import opened Wrappers
  import opened Geometry
  import Text

  /** `EFFECT_RARITY_SET`. */
  const Rarities: set<string> := {"SSR", "SR", "R"}

  /** `EFFECT_MAPPING_SET`: the effect names. */
  const EffectNames: set<string> := {
    "高品质粉末", "隐形粉", "快速充电器", "连结AMO", "引流转换器",
    "聚焦瞄准镜", "重启载体", "艾薇拉粒子干扰丝", "自动对焦眼球", "控制引导器",
    "冲击引流器", "辅助发电机", "小型离子束屏障", "治愈喷雾弹头", "快速换弹程序"}

  /** The marker of the item that shows whom an effect applies to. */
  const AppliesMarker: string := "适用对象"

  /** The keys of `CLASS_AND_MANUFACTURER_SET`, in their order. */
  const Genres: seq<string> := ["ATTACKER", "DEFENDER", "SUPPORTER", "ESYSION", "MISSILIS", "PILGRIM", "TETRA"]

  /** An OCR bounding box: its four corners, top-left first, bottom-right third. */
  datatype Box = Box(p0: Point, p1: Point, p2: Point, p3: Point)

  /** One OCR item: its text and box, and which genre templates match the
      area `adjust_position` derives from the box (the template matching
      itself is not part of this model). */
  datatype Item = Item(text: string, position: Box, matching: set<string>)

  /** An emitted record: `{rarity, effect, position, applies}`. */
  datatype Effect = Effect(rarity: string, name: string, position: Box, applies: Option<string>)

  /** The pending `effect` dictionary. Its `effect` and `position` keys are
      only ever set together, so they are one optional pair here. */
  datatype Draft = Draft(rarity: string, named: Option<(string, Box)>, applies: Option<string>)

  /** `adjust_position`: from the box's left edge and 10 pixels above its top
      to x = 635 and 10 pixels below its bottom. */
  function AdjustPosition(b: Box): (a: Area)
    ensures a.x1 == b.p0.x && a.x2 == 635
    ensures a.y1 == b.p0.y - 10 && a.y2 == b.p2.y + 10
  {
    Area(b.p0.x, b.p0.y - 10, 635, b.p2.y + 10)
  }

  /** The adjusted area covers the whole box, with a margin of 10 above and
      below, when the box lies left of x = 635. */
  lemma AdjustedAreaCoversBox(b: Box, p: Point)
    requires b.p0.x <= p.x <= 635 && b.p0.y <= p.y <= b.p2.y
    ensures InArea(p, AdjustPosition(b))
    ensures InArea(Point(p.x, b.p0.y - 10), AdjustPosition(b)) && InArea(Point(p.x, b.p2.y + 10), AdjustPosition(b))
    ensures !InArea(Point(p.x, b.p0.y - 11), AdjustPosition(b)) && !InArea(Point(p.x, b.p2.y + 11), AdjustPosition(b))
  {
  }

  /** `predict_enemy_genre`: the first genre, in dictionary order, whose
      template matches; None when none does. */
  function PredictEnemyGenre(matching: set<string>): (r: Option<string>)
    ensures r.None? <==> forall k :: 0 <= k < |Genres| ==> Genres[k] !in matching
    ensures r.Some? ==> r.value in matching && r.value in Genres
    ensures r.Some? ==> forall k :: 0 <= k < |Genres| && Genres[k] == r.value ==>
                          forall j :: 0 <= j < k ==> Genres[j] !in matching
  {
    FirstMatching(Genres, matching)
  }

  function FirstMatching(names: seq<string>, matching: set<string>): (r: Option<string>)
    ensures r.None? <==> forall k :: 0 <= k < |names| ==> names[k] !in matching
    ensures r.Some? ==> r.value in matching && r.value in names
    ensures r.Some? ==> exists k :: 0 <= k < |names| && names[k] == r.value &&
                          forall j :: 0 <= j < k ==> names[j] !in matching
  {
    if names == [] then None
    else if names[0] in matching then Some(names[0])
    else
      var r := FirstMatching(names[1..], matching);
      if r.Some? then
        var k :| 0 <= k < |names[1..]| && names[1..][k] == r.value &&
                 forall j :: 0 <= j < k ==> names[1..][j] !in matching;
        assert names[k + 1] == r.value;
        r
      else r
  }

  /** One iteration of the loop: the draft and the effect it emits, if any. */
  function Step(effect: Option<Draft>, item: Item): (r: (Option<Draft>, Option<Effect>))
    ensures r.1.Some? ==> r.0.None?
    ensures r.0.Some? ==> r.0.value.named.None?
  {
    var text := Text.Strip(item.text);
    var e1 := if text in Rarities then Some(Draft(text, None, None)) else effect;
    var e2 := if e1.Some? && text in EffectNames then Some(e1.value.(named := Some((text, item.position))))
              else e1;
    var e3 := if e2.Some? && Text.Contains(text, AppliesMarker)
              then Some(e2.value.(applies := PredictEnemyGenre(item.matching)))
              else e2;
    if e3.Some? && e3.value.named.Some? then
      (None, Some(Effect(e3.value.rarity, e3.value.named.value.0, e3.value.named.value.1, e3.value.applies)))
    else (e3, None)
  }

  /** The effects emitted by the loop over `items`, from draft `effect`. */
  function Parse(effect: Option<Draft>, items: seq<Item>): seq<Effect>
    decreases |items|
  {
    if items == [] then []
    else
      var (next, out) := Step(effect, items[0]);
      (if out.Some? then [out.value] else []) + Parse(next, items[1..])
  }

  /** A draft is only ever made from a rarity item, and it never holds a name. */
  predicate GoodDraft(effect: Option<Draft>)
  {
    effect.Some? ==> effect.value.rarity in Rarities && effect.value.named.None?
  }

  /** A rarity item starts a fresh draft, discarding any pending one that
      has no name yet. */
  lemma RarityStartsDraft(effect: Option<Draft>, item: Item)
    requires Text.Strip(item.text) in Rarities
    ensures Step(effect, item) == (Some(Draft(Text.Strip(item.text), None, None)), None)
  {
    var text := Text.Strip(item.text);
    assert text !in EffectNames;
    assert !Text.Contains(text, AppliesMarker) by {
      Text.ContainsIff(text, AppliesMarker);
    }
  }

  /** An effect-name item with no pending rarity is ignored. */
  lemma NameWithoutRarityIgnored(item: Item)
    requires Text.Strip(item.text) in EffectNames
    ensures Step(None, item) == (None, None)
  {
    assert Text.Strip(item.text) !in Rarities;
  }

  /** A name item under a pending draft emits the effect at once, with this
      item's name and position and the draft's rarity and genre. */
  lemma NameEmits(d: Draft, item: Item)
    requires GoodDraft(Some(d)) && Text.Strip(item.text) in EffectNames
    ensures Step(Some(d), item) ==
              (None, Some(Effect(d.rarity, Text.Strip(item.text), item.position, d.applies)))
  {
    var text := Text.Strip(item.text);
    assert text !in Rarities;
    assert !Text.Contains(text, AppliesMarker) by {
      Text.ContainsIff(text, AppliesMarker);
      NameHasNoMarker(text);
    }
  }

  lemma NameHasNoMarker(name: string)
    requires name in EffectNames
    ensures forall i :: !Text.OccursAt(name, AppliesMarker, i)
  {
    forall i | 0 <= i <= |name| - |AppliesMarker|
      ensures !Text.OccursAt(name, AppliesMarker, i)
    {
      assert name[i..i + |AppliesMarker|][0] == name[i];
      assert AppliesMarker[0] == '适';
      assert '适' !in name;
    }
  }

  /** Only an item containing the marker sets the genre of a pending draft;
      other items that are neither rarity nor name leave the draft as it is. */
  lemma MarkerSetsGenre(d: Draft, item: Item)
    requires GoodDraft(Some(d))
    requires Text.Strip(item.text) !in Rarities && Text.Strip(item.text) !in EffectNames
    ensures Text.Contains(Text.Strip(item.text), AppliesMarker) ==>
              Step(Some(d), item) == (Some(d.(applies := PredictEnemyGenre(item.matching))), None)
    ensures !Text.Contains(Text.Strip(item.text), AppliesMarker) ==> Step(Some(d), item) == (Some(d), None)
  {
  }

  /** Drafts stay well formed along the loop. */
  lemma StepKeepsDraftGood(effect: Option<Draft>, item: Item)
    requires GoodDraft(effect)
    ensures GoodDraft(Step(effect, item).0)
    ensures Step(effect, item).1.Some? ==>
              (Step(effect, item).1.value.rarity in Rarities && Step(effect, item).1.value.name in EffectNames)
  {
  }

  /** Number of items whose stripped text is a rarity. */
  function RarityItems(items: seq<Item>): nat
    decreases |items|
  {
    if items == [] then 0 else (if Text.Strip(items[0].text) in Rarities then 1 else 0) + RarityItems(items[1..])
  }

  /** Every emitted effect has a rarity and an effect name from the two
      sets, and there are at most as many effects as rarity items (plus the
      one pending draft the loop may start with). */
  lemma {:induction false} ParseSound(effect: Option<Draft>, items: seq<Item>)
    requires GoodDraft(effect)
    ensures forall e :: e in Parse(effect, items) ==> e.rarity in Rarities && e.name in EffectNames
    ensures |Parse(effect, items)| <= RarityItems(items) + (if effect.Some? then 1 else 0)
    decreases |items|
  {
    if items != [] {
      StepKeepsDraftGood(effect, items[0]);
      var (next, out) := Step(effect, items[0]);
      ParseSound(next, items[1..]);
      if Text.Strip(items[0].text) in Rarities {
        RarityStartsDraft(effect, items[0]);
      }
    }
  }

  /** Without any item containing the marker, no effect has a genre. */
  lemma {:induction false} NoMarkerNoGenre(effect: Option<Draft>, items: seq<Item>)
    requires effect.Some? ==> effect.value.applies.None?
    requires forall k :: 0 <= k < |items| ==> !Text.Contains(Text.Strip(items[k].text), AppliesMarker)
    ensures forall e :: e in Parse(effect, items) ==> e.applies.None?
    decreases |items|
  {
    if items != [] {
      var (next, out) := Step(effect, items[0]);
      NoMarkerNoGenre(next, items[1..]);
    }
  }

  /** The item `item` is the name item of effect `e`. */
  predicate NamesEffect(item: Item, e: Effect)
  {
    Text.Strip(item.text) == e.name && item.position == e.position
  }

  /** The item's text, stripped, is a rarity. */
  predicate IsRarity(item: Item)
  {
    Text.Strip(item.text) in Rarities
  }

  /** The item's text, stripped, contains the 适用对象 marker. */
  predicate IsMarker(item: Item)
  {
    Text.Contains(Text.Strip(item.text), AppliesMarker)
  }

  /** No rarity item among `items[lo..hi]`. */
  predicate NoRarityIn(items: seq<Item>, lo: int, hi: int)
  {
    forall j :: lo <= j < hi && 0 <= j < |items| ==> !IsRarity(items[j])
  }

  /** The genre of `e` was predicted at a marker item that comes before
      its name item, with no rarity item after the marker up to the name:
      the marker belongs to the same draft as the name. */
  ghost predicate GenreFromMarker(items: seq<Item>, e: Effect)
  {
    exists k, n :: 0 <= k < n < |items| && IsMarker(items[k])
                   && e.applies == PredictEnemyGenre(items[k].matching)
                   && NamesEffect(items[n], e) && NoRarityIn(items, k + 1, n + 1)
  }

  /** The genre of an effect comes from a marker item between the draft's
      rarity item and its name item; an effect without such an item has no
      genre. */
  lemma GenreBetweenRarityAndName(items: seq<Item>)
    ensures forall e :: e in Parse(None, items) && e.applies.Some? ==> GenreFromMarker(items, e)
  {
    forall e | e in Parse(None, items) && e.applies.Some?
      ensures GenreFromMarker(items, e)
    {
      GenreOrigin(None, items, e);
    }
  }

  /** From any draft: the genre of an emitted effect comes from a marker of
      the list, or is the starting draft's genre when no rarity item comes
      before the effect's name item. */
  lemma {:induction false} GenreOrigin(effect: Option<Draft>, items: seq<Item>, e: Effect)
    requires GoodDraft(effect)
    requires e in Parse(effect, items) && e.applies.Some?
    ensures GenreFromMarker(items, e)
            || (effect.Some? && e.applies == effect.value.applies
                && exists n :: 0 <= n < |items| && NamesEffect(items[n], e) && NoRarityIn(items, 0, n + 1))
    decreases |items|
  {
    var (next, out) := Step(effect, items[0]);
    ParseCons(effect, items);
    if out.Some? && e == out.value {
      EmittedGenre(effect, items[0], e);
      assert NamesEffect(items[0], e) && NoRarityIn(items, 0, 1);
    } else {
      StepKeepsDraftGood(effect, items[0]);
      GenreOrigin(next, items[1..], e);
      GenreOriginShift(effect, items, e);
    }
  }

  /** The inductive step of `GenreOrigin`: the origin found in the rest of
      the list, moved one item on. */
  lemma GenreOriginShift(effect: Option<Draft>, items: seq<Item>, e: Effect)
    requires GoodDraft(effect) && items != [] && e.applies.Some?
    requires var next := Step(effect, items[0]).0;
             GenreFromMarker(items[1..], e)
             || (next.Some? && e.applies == next.value.applies
                 && exists n :: 0 <= n < |items[1..]| && NamesEffect(items[1..][n], e) && NoRarityIn(items[1..], 0, n + 1))
    ensures GenreFromMarker(items, e)
            || (effect.Some? && e.applies == effect.value.applies
                && exists n :: 0 <= n < |items| && NamesEffect(items[n], e) && NoRarityIn(items, 0, n + 1))
  {
    if GenreFromMarker(items[1..], e) {
      MarkerShift(items, e);
    } else {
      CarriedGenre(effect, items[0]);
      var x := items[0];
      assert !IsRarity(x);
      assert (IsMarker(x) && e.applies == PredictEnemyGenre(x.matching))
             || (effect.Some? && e.applies == effect.value.applies);
      DraftGenreShift(effect, items, e);
    }
  }

  /** A marker and name pair found in the rest of the list is one of the
      whole list. */
  lemma MarkerShift(items: seq<Item>, e: Effect)
    requires items != [] && GenreFromMarker(items[1..], e)
    ensures GenreFromMarker(items, e)
  {
    var rest := items[1..];
    var k, n :| 0 <= k < n < |rest| && IsMarker(rest[k])
                && e.applies == PredictEnemyGenre(rest[k].matching)
                && NamesEffect(rest[n], e) && NoRarityIn(rest, k + 1, n + 1);
    assert items[k + 1] == rest[k] && items[n + 1] == rest[n];
    assert NoRarityIn(items, k + 2, n + 2);
  }

  /** A genre the draft carried into the rest of the list came from the
      first item, a marker, or from the draft before it. */
  lemma DraftGenreShift(effect: Option<Draft>, items: seq<Item>, e: Effect)
    requires items != []
    requires exists n :: 0 <= n < |items[1..]| && NamesEffect(items[1..][n], e) && NoRarityIn(items[1..], 0, n + 1)
    requires !IsRarity(items[0])
    requires (IsMarker(items[0]) && e.applies == PredictEnemyGenre(items[0].matching))
             || (effect.Some? && e.applies == effect.value.applies)
    ensures GenreFromMarker(items, e)
            || (effect.Some? && e.applies == effect.value.applies
                && exists n :: 0 <= n < |items| && NamesEffect(items[n], e) && NoRarityIn(items, 0, n + 1))
  {
    var rest := items[1..];
    var n :| 0 <= n < |rest| && NamesEffect(rest[n], e) && NoRarityIn(rest, 0, n + 1);
    assert items[n + 1] == rest[n];
    if IsMarker(items[0]) && e.applies == PredictEnemyGenre(items[0].matching) {
      assert NoRarityIn(items, 1, n + 2);
    } else {
      assert NoRarityIn(items, 0, n + 2);
    }
  }

  /** An effect emitted by one pass carries the genre of the draft it
      completes, and its name item is no rarity item. */
  lemma EmittedGenre(effect: Option<Draft>, item: Item, e: Effect)
    requires GoodDraft(effect) && Step(effect, item).1 == Some(e)
    ensures effect.Some? && e.applies == effect.value.applies
    ensures NamesEffect(item, e) && Text.Strip(item.text) !in Rarities
  {
    var text := Text.Strip(item.text);
    assert text in EffectNames;
    assert text !in Rarities;
    if effect.None? {
      NameWithoutRarityIgnored(item);
    } else {
      NameEmits(effect.value, item);
    }
  }

  /** A draft that carries a genre after one pass without an emission had
      it before, or took it from this item, a marker item; the item is no
      rarity item. */
  lemma CarriedGenre(effect: Option<Draft>, item: Item)
    requires GoodDraft(effect)
    requires Step(effect, item).0.Some? && Step(effect, item).0.value.applies.Some?
    ensures Text.Strip(item.text) !in Rarities
    ensures (Text.Contains(Text.Strip(item.text), AppliesMarker)
             && Step(effect, item).0.value.applies == PredictEnemyGenre(item.matching))
            || (effect.Some? && Step(effect, item).0.value.applies == effect.value.applies)
  {
    var text := Text.Strip(item.text);
    if text in Rarities {
      RarityStartsDraft(effect, item);
    } else if text in EffectNames {
      if effect.None? {
        NameWithoutRarityIgnored(item);
      } else {
        NameEmits(effect.value, item);
      }
    } else if effect.Some? {
      MarkerSetsGenre(effect.value, item);
    }
  }

  /** Every effect takes its name and position from one name item of the
      list: the position recorded is that of the name, not of the rarity. */
  lemma {:induction false} ParseFromNameItems(effect: Option<Draft>, items: seq<Item>)
    requires GoodDraft(effect)
    ensures forall e :: e in Parse(effect, items) ==>
              exists k :: 0 <= k < |items| && Text.Strip(items[k].text) == e.name && items[k].position == e.position
    decreases |items|
  {
    if items != [] {
      StepKeepsDraftGood(effect, items[0]);
      var (next, out) := Step(effect, items[0]);
      ParseFromNameItems(next, items[1..]);
      forall e | e in Parse(effect, items)
        ensures exists k :: 0 <= k < |items| && Text.Strip(items[k].text) == e.name && items[k].position == e.position
      {
        if out.Some? && e == out.value {
          assert Text.Strip(items[0].text) == e.name && items[0].position == e.position;
        } else {
          assert e in Parse(next, items[1..]);
          var k :| 0 <= k < |items[1..]| && Text.Strip(items[1..][k].text) == e.name && items[1..][k].position == e.position;
          assert items[k + 1] == items[1..][k];
        }
      }
    }
  }

  /** The pending draft once the loop has gone over `items`. */
  function DraftAfter(effect: Option<Draft>, items: seq<Item>): Option<Draft>
    decreases |items|
  {
    if items == [] then effect else DraftAfter(Step(effect, items[0]).0, items[1..])
  }

  /** Effects come out in input order: the effects of a list are those of
      its first part followed by those of the rest, which the loop starts
      with the draft the first part left pending. */
  lemma {:induction false} ParseInOrder(effect: Option<Draft>, a: seq<Item>, b: seq<Item>)
    ensures Parse(effect, a + b) == Parse(effect, a) + Parse(DraftAfter(effect, a), b)
    decreases |a|
  {
    if a == [] {
      assert a + b == b;
    } else {
      var next := Step(effect, a[0]).0;
      ParseInOrder(next, a[1..], b);
      ParseInOrderStep(effect, a, b);
      AppendAssoc(Emitted(Step(effect, a[0]).1), Parse(next, a[1..]), Parse(DraftAfter(next, a[1..]), b));
    }
  }

  /** The first pass of `a + b` is the first pass of `a`. */
  lemma ParseInOrderStep(effect: Option<Draft>, a: seq<Item>, b: seq<Item>)
    requires a != []
    ensures Parse(effect, a + b) == Emitted(Step(effect, a[0]).1) + Parse(Step(effect, a[0]).0, a[1..] + b)
    ensures Parse(effect, a) == Emitted(Step(effect, a[0]).1) + Parse(Step(effect, a[0]).0, a[1..])
    ensures DraftAfter(effect, a) == DraftAfter(Step(effect, a[0]).0, a[1..])
  {
    assert (a + b)[0] == a[0] && (a + b)[1..] == a[1..] + b;
    ParseCons(effect, a + b);
    ParseCons(effect, a);
  }

  lemma AppendAssoc<T>(x: seq<T>, y: seq<T>, z: seq<T>)
    ensures x + (y + z) == (x + y) + z
  {
  }

  /** What one pass appends to the effects. */
  function Emitted(out: Option<Effect>): seq<Effect>
  {
    if out.Some? then [out.value] else []
  }

  lemma ParseCons(effect: Option<Draft>, items: seq<Item>)
    requires items != []
    ensures Parse(effect, items) == Emitted(Step(effect, items[0]).1) + Parse(Step(effect, items[0]).0, items[1..])
  {
  }

  /** The body of one iteration as the source writes it, with its three
      `if`s in order; it is proved to do what `Step` specifies. */
  method Pass(effect: Option<Draft>, item: Item) returns (next: Option<Draft>, emitted: seq<Effect>)
    ensures Step(effect, item).1.None? ==> emitted == [] && next == Step(effect, item).0
    ensures Step(effect, item).1.Some? ==> emitted == [Step(effect, item).1.value] && next == None
  {
    next := effect;
    var text := Text.Strip(item.text);
    if text in Rarities {
      next := Some(Draft(text, None, None));
    }
    if next.Some? && text in EffectNames {
      next := Some(next.value.(named := Some((text, item.position))));
    }
    if next.Some? && Text.Contains(text, AppliesMarker) {
      next := Some(next.value.(applies := PredictEnemyGenre(item.matching)));
    }
    emitted := [];
    if next.Some? && next.value.named.Some? {
      emitted := [Effect(next.value.rarity, next.value.named.value.0, next.value.named.value.1, next.value.applies)];
      next := None;
    }
  }

  /** `build_effect_struct`. */
  method BuildEffectStruct(data: seq<Item>) returns (effects: seq<Effect>)
    ensures effects == Parse(None, data)
  {
    effects := [];
    var effect: Option<Draft> := None;
    var i := 0;
    while i < |data|
      invariant 0 <= i <= |data|
      invariant Parse(None, data) == effects + Parse(effect, data[i..])
    {
      var emitted;
      ghost var before := effect;
      effect, emitted := Pass(effect, data[i]);
      ParseUnfold(effects, before, data, i, effect, emitted);
      effects := effects + emitted;
      i := i + 1;
    }
  }

  lemma ParseUnfold(done: seq<Effect>, effect: Option<Draft>, data: seq<Item>, i: nat, next: Option<Draft>,
                    emitted: seq<Effect>)
    requires i < |data|
    requires Step(effect, data[i]).1.None? ==> emitted == [] && next == Step(effect, data[i]).0
    requires Step(effect, data[i]).1.Some? ==> emitted == [Step(effect, data[i]).1.value] && next == None
    ensures done + Parse(effect, data[i..]) == (done + emitted) + Parse(next, data[i + 1..])
  {
    assert data[i..][0] == data[i] && data[i..][1..] == data[i + 1..];
    assert Parse(effect, data[i..]) == emitted + Parse(next, data[i + 1..]);
  }
}
