/**
 * What the class's own tables do with the listed key `datePriceIncrease`
 * (murinoclub.py:903-940, 986-1006): the denylist test of line 992 lets it
 * through, and the label `price` wins the lookup, so `map_by_one` calls
 * `set_price_base` with the value; the intended test refuses the key.
 */
module CamelCaseKey {
  import opened Results
  import opened Text
  import opened Utils
  import opened Synonyms
  import opened Mapper

  /** The letters of `datepriceincrease`. */
  predicate KeyLetter(c: char) {
    c == 'a' || c == 'c' || c == 'd' || c == 'e' || c == 'i' || c == 'n' || c == 'p' || c == 'r' || c == 's' || c == 't'
  }

  /** Every letter of the lowered key is one of `KeyLetter`'s. */
  predicate KeyLetters(k: string) {
    forall i :: 0 <= i < |Lower(k)| ==> KeyLetter(Lower(k)[i])
  }

  /** No `a` is followed by `b` in `s`. */
  predicate NoPair(s: string, a: char, b: char) {
    forall i :: 0 <= i < |s| - 1 ==> s[i] != a || s[i + 1] != b
  }

  /** Each character of a pattern is in every text that contains it. */
  lemma {:induction false} CharOfContains(s: string, p: string, j: nat)
    requires j < |p|
    ensures Contains(s, p) ==> p[j] in s
  {
    if Contains(s, p) {
      var i := IndexOf(s, p).value;
      assert s[i..i + |p|][j] == s[i + j];
    }
  }

  /** A text that contains a pattern holds its first two characters side by side. */
  lemma {:induction false} PairOfContains(s: string, p: string)
    requires |p| >= 2
    ensures Contains(s, p) ==> exists i :: 0 <= i < |s| - 1 && s[i] == p[0] && s[i + 1] == p[1]
  {
    if Contains(s, p) {
      var i := IndexOf(s, p).value;
      assert s[i..i + |p|][0] == s[i] && s[i..i + |p|][1] == s[i + 1];
    }
  }

  /** A label holding a letter the key lacks does not match it. */
  lemma {:induction false} MissByLetter(k: string, name: string, j: nat)
    requires KeyLetters(k) && j < |name| && !KeyLetter(LowerChar(name[j]))
    ensures !LabelMatches(k, name, false)
  {
    CharOfContains(Lower(k), Lower(name), j);
  }

  /** A label whose first two letters never stand side by side in the key does not match it. */
  lemma {:induction false} MissByPair(k: string, name: string)
    requires |name| >= 2 && NoPair(Lower(k), LowerChar(name[0]), LowerChar(name[1]))
    ensures !LabelMatches(k, name, false)
  {
    PairOfContains(Lower(k), Lower(name));
  }

  /** No name of the row `g` as long as `price` matches the key, unless it is `price` on the base price's row. */
  predicate PriceLongest(g: Group<Setter>, k: string) {
    forall li :: 0 <= li < |g.labels| && |g.labels[li]| >= 5 && LabelMatches(k, g.labels[li], false) ==>
      g.labels[li] == "price" && g.target == PriceBase
  }

  /** A label holding a letter outside the key's. */
  predicate Foreign(name: string) {
    exists j :: 0 <= j < |name| && !KeyLetter(LowerChar(name[j]))
  }

  lemma {:induction false} ForeignAt(name: string, j: nat)
    requires j < |name| && !KeyLetter(LowerChar(name[j]))
    ensures Foreign(name)
  {
  }

  /** A label that starts with `en`. */
  predicate Unpaired(name: string) {
    |name| >= 2 && LowerChar(name[0]) == 'e' && LowerChar(name[1]) == 'n'
  }

  /** Label `li` of the row `g` is shorter than `price`, cannot match the key, or is `price` on the base price's row. */
  predicate Clear(g: Group<Setter>, li: nat)
    requires li < |g.labels|
  {
    var n := g.labels[li];
    |n| < 5 || Foreign(n) || Unpaired(n) || (n == "price" && g.target == PriceBase)
  }

  predicate RowClear(g: Group<Setter>) {
    forall li :: 0 <= li < |g.labels| ==> Clear(g, li)
  }

  /** The labels from `lo` on below `hi` of the row `g` are clear. */
  predicate RowClearBetween(g: Group<Setter>, lo: nat, hi: nat) {
    forall li :: lo <= li < hi && li < |g.labels| ==> Clear(g, li)
  }

  /** A clear row gives a key of key letters without `en` no matching label as long as `price` but `price` itself. */
  lemma {:induction false} RowClearPriceLongest(g: Group<Setter>, k: string)
    requires RowClear(g) && KeyLetters(k) && NoPair(Lower(k), 'e', 'n')
    ensures PriceLongest(g, k)
  {
    forall li | 0 <= li < |g.labels|
      ensures |g.labels[li]| >= 5 && LabelMatches(k, g.labels[li], false) ==> g.labels[li] == "price" && g.target == PriceBase
    {
      var n := g.labels[li];
      assert Clear(g, li);
      if Foreign(n) {
        var j :| 0 <= j < |n| && !KeyLetter(LowerChar(n[j]));
        MissByLetter(k, n, j);
      } else if Unpaired(n) {
        MissByPair(k, n);
      }
    }
  }

  /**
   * When `price` on the base price's row is a matching name no other
   * matching name is as long as, the sorted table maps the key to
   * `set_price_base`.
   */
  lemma {:induction false} PriceWins(groups: seq<Group<Setter>>, k: string, gp: nat, lp: nat)
    requires forall gi :: 0 <= gi < |groups| ==> PriceLongest(groups[gi], k)
    requires gp < |groups| && groups[gp].target == PriceBase && lp < |groups[gp].labels| && groups[gp].labels[lp] == "price"
    requires LabelMatches(k, "price", false)
    ensures MapKeyTarget(SortByLength(Flatten(groups)), k, false) == Some(PriceBase)
  {
    var f := Flatten(groups);
    var s := SortByLength(f);
    var price := Entry("price", PriceBase);
    FlattenMembers(groups, price);
    assert price == Entry(groups[gp].labels[lp], groups[gp].target);
    SortByLengthPermutation(f);
    assert price in multiset(s);
    var p :| 0 <= p < |s| && s[p] == price;
    SortByLengthSorted(f);
    MapKeyTargetLongest(s, k, false);
    var r := MapKeyTarget(s, k, false);
    assert LabelMatches(k, s[p].name, false);
    var j :| 0 <= j < |s| && s[j].target == r.value && LongestMatching(s, k, false, j);
    assert |s[j].name| >= 5;
    assert s[j] in multiset(f);
    FlattenMembers(groups, s[j]);
    var gi, li :| 0 <= gi < |groups| && 0 <= li < |groups[gi].labels| && s[j] == Entry(groups[gi].labels[li], groups[gi].target);
    assert PriceLongest(groups[gi], k);
  }

  /** The letters of `datePriceIncrease`, lowered, and the pair `en` it lacks. */
  lemma {:induction false} CamelCaseKeyLetters(k: string)
    requires k == "datePriceIncrease"
    ensures KeyLetters(k) && NoPair(Lower(k), 'e', 'n')
  {
    forall i | 0 <= i < |k|
      ensures KeyLetter(LowerChar(k[i])) && (i + 1 < |k| ==> LowerChar(k[i]) != 'e' || LowerChar(k[i + 1]) != 'n')
    {
      if i == 0 {
        assert k[0] == 'd';
      } else if i == 1 {
        assert k[1] == 'a';
      } else if i == 2 {
        assert k[2] == 't';
      } else if i == 3 {
        assert k[3] == 'e';
      } else if i == 4 {
        assert k[4] == 'P';
      } else if i == 5 {
        assert k[5] == 'r';
      } else if i == 6 {
        assert k[6] == 'i';
      } else if i == 7 {
        assert k[7] == 'c';
      } else if i == 8 {
        assert k[8] == 'e';
      } else if i == 9 {
        assert k[9] == 'I';
      } else if i == 10 {
        assert k[10] == 'n';
      } else if i == 11 {
        assert k[11] == 'c';
      } else if i == 12 {
        assert k[12] == 'r';
      } else if i == 13 {
        assert k[13] == 'e';
      } else if i == 14 {
        assert k[14] == 'a';
      } else if i == 15 {
        assert k[15] == 's';
      } else {
        assert k[16] == 'e';
      }
    }
  }

  /** A character whose lowered form is a key letter is no blank. */
  lemma {:induction false} KeyLetterNotSpace(c: char)
    requires KeyLetter(LowerChar(c))
    ensures !IsSpace(c)
  {
    if IsUpper(c) {
      assert 'A' <= c <= 'Z' || 0x400 <= c as int <= 0x42F;
    } else {
      assert LowerChar(c) == c;
    }
  }

  /** A key made of key letters holds no blank, so it is its own `_normalize_str`. */
  lemma {:induction false} NormalizeStrOfKey(k: string)
    requires KeyLetters(k)
    ensures NormalizeStr(k) == k
  {
    forall i | 0 <= i < |k|
      ensures !IsSpace(k[i])
    {
      assert Lower(k)[i] == LowerChar(k[i]);
      KeyLetterNotSpace(k[i]);
    }
    assert IsNormal(k);
    NormalizeStrFixedPoints(k);
  }

  /** Every row of `method_by_names` gives the key no matching label as long as `price` but `price` itself. */
  lemma {:induction false} ClassTablePriceLongest(k: string)
    requires KeyLetters(k) && NoPair(Lower(k), 'e', 'n')
    ensures forall gi :: 0 <= gi < |MethodByNames| ==> PriceLongest(MethodByNames[gi], k)
  {
    ClassTableClear();
    forall gi | 0 <= gi < |MethodByNames|
      ensures PriceLongest(MethodByNames[gi], k)
    {
      RowClearPriceLongest(MethodByNames[gi], k);
    }
  }

  /** The class's sorted table maps `datePriceIncrease` to `set_price_base`. */
  lemma {:induction false} ClassTableMapsKey(k: string)
    requires k == "datePriceIncrease"
    ensures MapKeyTarget(SortByLength(Flatten(MethodByNames)), k, false) == Some(PriceBase)
  {
    CamelCaseKeyLetters(k);
    ClassTablePriceLongest(k);
    PriceInKey(k);
    assert MethodByNames[3] == Group(PriceBase, PriceBaseLabels) && PriceBaseLabels[0] == "price";
    PriceWins(MethodByNames, k, 3, 0);
  }

  /**
   * A non-empty key that cleans to itself, is not listed lowered, and whose label on
   * the table is `set_price_base` calls that setter with the cleaned value
   * when no setter is restricted.
   */
  lemma {:induction false} PriceKeyResolves(t: Tables, k: string, value: string)
    requires k != "" && CleanKey(k, false) == k && Lower(k) !in t.keys && t.restricted == []
    requires MapKeyTarget(t.pairs, k, false) == Some(PriceBase)
    ensures Resolve(t, k, value, false, []) == (if CleanValue(value) == "" then None else Some((PriceBase, CleanValue(value))))
  {
    var v := CleanValue(value);
    assert !KeyRestrictedAsWritten(CleanKey(k, false), t.keys);
    assert Resolve(t, k, value, false, []) == ResolveCleaned(t, k, v, false, [], false);
    assert Permitted(PriceBase, [], t.restricted);
  }

  /**
   * A key listed at index 3 of the class's keys, that cleans to itself, is
   * not listed lowered, and maps to `set_price_base`, resolves to that
   * setter as written and to nothing as intended.
   */
  lemma {:induction false} ListedPriceKey(t: Tables, k: string, value: string)
    requires k != "" && CleanKey(k, false) == k && t.restricted == []
    requires 3 < |t.keys| && t.keys[3] == k && Lower(k) !in t.keys
    requires MapKeyTarget(t.pairs, k, false) == Some(PriceBase)
    ensures Resolve(t, k, value, false, []) == (if CleanValue(value) == "" then None else Some((PriceBase, CleanValue(value))))
    ensures ResolveIntended(t, k, value, false, []) == None
  {
    PriceKeyResolves(t, k, value);
    ResolveIntendedRefuses(t, k, value, false, [], 3);
  }

  /** The fourth restricted key of the class is `datePriceIncrease`. */
  lemma {:induction false} FourthKey(k: string)
    requires k == RestrictedKeys[3]
    ensures k == "datePriceIncrease"
  {
  }

  /** `CamelCaseKeyLetters`, for the key as it is listed. */
  lemma {:induction false} FourthKeyLetters(k: string)
    requires k == RestrictedKeys[3]
    ensures KeyLetters(k) && NoPair(Lower(k), 'e', 'n')
  {
    FourthKey(k);
    CamelCaseKeyLetters(k);
  }

  /** `ClassTableMapsKey`, for the key as it is listed. */
  lemma {:induction false} FourthKeyMaps(k: string)
    requires k == RestrictedKeys[3]
    ensures MapKeyTarget(SortByLength(Flatten(MethodByNames)), k, false) == Some(PriceBase)
  {
    FourthKey(k);
    ClassTableMapsKey(k);
  }

  /**
   * `map_by_one(obj, "datePriceIncrease", value)` on the class's own
   * tables calls `set_price_base` with the cleaned value, although the key
   * is the fourth of the listed keys; with the intended test it calls
   * nothing.
   */
  lemma {:induction false} CamelCaseKeyResolves(value: string)
    ensures var t := Tables(SortByLength(Flatten(MethodByNames)), RestrictedKeys, []);
      var k := RestrictedKeys[3];
      && Resolve(t, k, value, false, []) == (if CleanValue(value) == "" then None else Some((PriceBase, CleanValue(value))))
      && ResolveIntended(t, k, value, false, []) == None
  {
    var t := Tables(SortByLength(Flatten(MethodByNames)), RestrictedKeys, []);
    var k := RestrictedKeys[3];
    FourthKeyLetters(k);
    NormalizeStrOfKey(k);
    LoweredCamelCaseNotListed(k, RestrictedKeys);
    FourthKeyMaps(k);
    ListedPriceKey(t, k, value);
  }

  lemma {:induction false} InSaleRowClear()
    ensures RowClear(Group(InSale, InSaleLabels))
  {
    forall li | 0 <= li < |InSaleLabels|
      ensures Clear(Group(InSale, InSaleLabels), li)
    {
      if li < 4 {
        if li < 2 {
          if li < 1 {
            ForeignAt(InSaleLabels[0], 0);
          } else {
            ForeignAt(InSaleLabels[1], 1);
          }
        } else {
          if li < 3 {
            ForeignAt(InSaleLabels[2], 4);
          }
        }
      } else {
        if li < 6 {
          if li < 5 {
            ForeignAt(InSaleLabels[4], 2);
          } else {
            ForeignAt(InSaleLabels[5], 2);
          }
        } else {
          if li < 7 {
            ForeignAt(InSaleLabels[6], 4);
          } else {
            ForeignAt(InSaleLabels[7], 3);
          }
        }
      }
    }
  }

  lemma {:induction false} RoomsRowClearHead()
    ensures RowClearBetween(Group(Rooms, RoomsLabels), 0, 9)
  {
    forall li | 0 <= li < 9 && li < |RoomsLabels|
      ensures Clear(Group(Rooms, RoomsLabels), li)
    {
      if li < 4 {
        if li < 2 {
          if li < 1 {
            ForeignAt(RoomsLabels[0], 0);
          } else {
            ForeignAt(RoomsLabels[1], 1);
          }
        } else {
          if li < 3 {
            ForeignAt(RoomsLabels[2], 1);
          } else {
            ForeignAt(RoomsLabels[3], 0);
          }
        }
      } else {
        if li < 6 {
          if li < 5 {
            ForeignAt(RoomsLabels[4], 0);
          } else {
            ForeignAt(RoomsLabels[5], 0);
          }
        } else {
          if li < 7 {
            ForeignAt(RoomsLabels[6], 0);
          } else {
            if li < 8 {
              ForeignAt(RoomsLabels[7], 1);
            }
          }
        }
      }
    }
  }

  lemma {:induction false} RoomsRowClearTail()
    ensures RowClearBetween(Group(Rooms, RoomsLabels), 9, 19)
  {
    forall li | 9 <= li < 19 && li < |RoomsLabels|
      ensures Clear(Group(Rooms, RoomsLabels), li)
    {
      if li < 14 {
        if li < 11 {
          if li < 10 {
            ForeignAt(RoomsLabels[9], 0);
          } else {
            ForeignAt(RoomsLabels[10], 1);
          }
        } else {
          if li < 12 {
            ForeignAt(RoomsLabels[11], 1);
          } else {
            if li < 13 {
              ForeignAt(RoomsLabels[12], 1);
            } else {
              ForeignAt(RoomsLabels[13], 1);
            }
          }
        }
      } else {
        if li < 16 {
          if li < 15 {
            ForeignAt(RoomsLabels[14], 2);
          } else {
            ForeignAt(RoomsLabels[15], 1);
          }
        } else {
          if li < 17 {
            ForeignAt(RoomsLabels[16], 1);
          } else {
            if li >= 18 {
              ForeignAt(RoomsLabels[18], 1);
            }
          }
        }
      }
    }
  }

  lemma {:induction false} RoomsRowClear()
    ensures RowClear(Group(Rooms, RoomsLabels))
  {
    RoomsRowClearHead();
    RoomsRowClearTail();
    assert |RoomsLabels| == 19;
  }

  lemma {:induction false} AreaRowClearHead()
    ensures RowClearBetween(Group(Area, AreaLabels), 0, 9)
  {
    forall li | 0 <= li < 9 && li < |AreaLabels|
      ensures Clear(Group(Area, AreaLabels), li)
    {
      if li < 4 {
        if li < 2 {
          if li < 1 {
            ForeignAt(AreaLabels[0], 0);
          }
        } else {
          if li < 3 {
            ForeignAt(AreaLabels[2], 0);
          } else {
            ForeignAt(AreaLabels[3], 0);
          }
        }
      } else {
        if li < 6 {
          if li < 5 {
            ForeignAt(AreaLabels[4], 1);
          } else {
            ForeignAt(AreaLabels[5], 1);
          }
        } else {
          if li < 7 {
            ForeignAt(AreaLabels[6], 1);
          } else {
            if li >= 8 {
              ForeignAt(AreaLabels[8], 0);
            }
          }
        }
      }
    }
  }

  lemma {:induction false} AreaRowClearTail()
    ensures RowClearBetween(Group(Area, AreaLabels), 9, 18)
  {
    forall li | 9 <= li < 18 && li < |AreaLabels|
      ensures Clear(Group(Area, AreaLabels), li)
    {
      if li < 13 {
        if li < 11 {
          if li < 10 {
            ForeignAt(AreaLabels[9], 0);
          } else {
            ForeignAt(AreaLabels[10], 0);
          }
        } else {
          if li < 12 {
            ForeignAt(AreaLabels[11], 0);
          } else {
            ForeignAt(AreaLabels[12], 1);
          }
        }
      } else {
        if li < 15 {
          if li < 14 {
            ForeignAt(AreaLabels[13], 2);
          } else {
            ForeignAt(AreaLabels[14], 1);
          }
        } else {
          if li < 16 {
            ForeignAt(AreaLabels[15], 4);
          } else {
            if li < 17 {
              ForeignAt(AreaLabels[16], 2);
            } else {
              ForeignAt(AreaLabels[17], 5);
            }
          }
        }
      }
    }
  }

  lemma {:induction false} AreaRowClear()
    ensures RowClear(Group(Area, AreaLabels))
  {
    AreaRowClearHead();
    AreaRowClearTail();
    assert |AreaLabels| == 18;
  }

  lemma {:induction false} PriceBaseRowClear()
    ensures RowClear(Group(PriceBase, PriceBaseLabels))
  {
    forall li | 0 <= li < |PriceBaseLabels|
      ensures Clear(Group(PriceBase, PriceBaseLabels), li)
    {
      if li < 5 {
        if li < 2 {
          if li >= 1 {
            ForeignAt(PriceBaseLabels[1], 5);
          }
        } else {
          if li >= 3 {
            if li >= 4 {
              ForeignAt(PriceBaseLabels[4], 1);
            }
          }
        }
      } else {
        if li < 8 {
          if li < 6 {
            ForeignAt(PriceBaseLabels[5], 6);
          } else {
            if li >= 7 {
              ForeignAt(PriceBaseLabels[7], 0);
            }
          }
        } else {
          if li < 9 {
            ForeignAt(PriceBaseLabels[8], 1);
          } else {
            if li < 10 {
              ForeignAt(PriceBaseLabels[9], 2);
            } else {
              ForeignAt(PriceBaseLabels[10], 1);
            }
          }
        }
      }
    }
  }

  lemma {:induction false} BuildingRowClear()
    ensures RowClear(Group(Building, BuildingLabels))
  {
    forall li | 0 <= li < |BuildingLabels|
      ensures Clear(Group(Building, BuildingLabels), li)
    {
      if li < 4 {
        if li < 2 {
          if li < 1 {
            ForeignAt(BuildingLabels[0], 0);
          } else {
            ForeignAt(BuildingLabels[1], 0);
          }
        } else {
          if li >= 3 {
            ForeignAt(BuildingLabels[3], 0);
          }
        }
      } else {
        if li < 6 {
          if li >= 5 {
            ForeignAt(BuildingLabels[5], 0);
          }
        } else {
          if li < 7 {
            ForeignAt(BuildingLabels[6], 0);
          } else {
            if li < 8 {
              ForeignAt(BuildingLabels[7], 1);
            } else {
              ForeignAt(BuildingLabels[8], 1);
            }
          }
        }
      }
    }
  }

  lemma {:induction false} NumberRowClearHead()
    ensures RowClearBetween(Group(Number, NumberLabels), 0, 6)
  {
    forall li | 0 <= li < 6 && li < |NumberLabels|
      ensures Clear(Group(Number, NumberLabels), li)
    {
      if li < 3 {
        if li >= 1 {
          if li < 2 {
            ForeignAt(NumberLabels[1], 0);
          } else {
            ForeignAt(NumberLabels[2], 0);
          }
        }
      } else {
        if li < 4 {
          ForeignAt(NumberLabels[3], 1);
        }
      }
    }
  }

  lemma {:induction false} NumberRowClearTail()
    ensures RowClearBetween(Group(Number, NumberLabels), 6, 13)
  {
    forall li | 6 <= li < 13 && li < |NumberLabels|
      ensures Clear(Group(Number, NumberLabels), li)
    {
      if li < 9 {
        if li < 7 {
          ForeignAt(NumberLabels[6], 0);
        }
      } else {
        if li < 11 {
          if li < 10 {
            ForeignAt(NumberLabels[9], 0);
          } else {
            ForeignAt(NumberLabels[10], 2);
          }
        } else {
          if li < 12 {
            ForeignAt(NumberLabels[11], 5);
          } else {
            ForeignAt(NumberLabels[12], 0);
          }
        }
      }
    }
  }

  lemma {:induction false} NumberRowClear()
    ensures RowClear(Group(Number, NumberLabels))
  {
    NumberRowClearHead();
    NumberRowClearTail();
    assert |NumberLabels| == 13;
  }

  lemma {:induction false} NumberOnSiteRowClear()
    ensures RowClear(Group(NumberOnSite, NumberOnSiteLabels))
  {
    forall li | 0 <= li < |NumberOnSiteLabels|
      ensures Clear(Group(NumberOnSite, NumberOnSiteLabels), li)
    {
      if li < 2 {
        if li < 1 {
          ForeignAt(NumberOnSiteLabels[0], 1);
        } else {
          ForeignAt(NumberOnSiteLabels[1], 1);
        }
      } else {
        if li < 3 {
          ForeignAt(NumberOnSiteLabels[2], 0);
        } else {
          ForeignAt(NumberOnSiteLabels[3], 0);
        }
      }
    }
  }

  lemma {:induction false} SectionRowClear()
    ensures RowClear(Group(Section, SectionLabels))
  {
    forall li | 0 <= li < |SectionLabels|
      ensures Clear(Group(Section, SectionLabels), li)
    {
      if li < 3 {
        if li < 1 {
          ForeignAt(SectionLabels[0], 5);
        } else {
          if li < 2 {
            ForeignAt(SectionLabels[1], 0);
          } else {
            ForeignAt(SectionLabels[2], 0);
          }
        }
      } else {
        if li < 5 {
          if li >= 4 {
            ForeignAt(SectionLabels[4], 5);
          }
        } else {
          if li >= 6 {
            ForeignAt(SectionLabels[6], 0);
          }
        }
      }
    }
  }

  lemma {:induction false} LivingAreaRowClearHead()
    ensures RowClearBetween(Group(LivingArea, LivingAreaLabels), 0, 6)
  {
    forall li | 0 <= li < 6 && li < |LivingAreaLabels|
      ensures Clear(Group(LivingArea, LivingAreaLabels), li)
    {
      if li < 3 {
        if li < 1 {
          ForeignAt(LivingAreaLabels[0], 0);
        } else {
          if li < 2 {
            ForeignAt(LivingAreaLabels[1], 0);
          } else {
            ForeignAt(LivingAreaLabels[2], 0);
          }
        }
      } else {
        if li < 4 {
          ForeignAt(LivingAreaLabels[3], 1);
        } else {
          if li < 5 {
            ForeignAt(LivingAreaLabels[4], 0);
          } else {
            ForeignAt(LivingAreaLabels[5], 4);
          }
        }
      }
    }
  }

  lemma {:induction false} LivingAreaRowClearTail()
    ensures RowClearBetween(Group(LivingArea, LivingAreaLabels), 6, 13)
  {
    forall li | 6 <= li < 13 && li < |LivingAreaLabels|
      ensures Clear(Group(LivingArea, LivingAreaLabels), li)
    {
      if li < 9 {
        if li < 7 {
          ForeignAt(LivingAreaLabels[6], 0);
        } else {
          if li < 8 {
            ForeignAt(LivingAreaLabels[7], 4);
          } else {
            ForeignAt(LivingAreaLabels[8], 4);
          }
        }
      } else {
        if li < 11 {
          if li < 10 {
            ForeignAt(LivingAreaLabels[9], 0);
          } else {
            ForeignAt(LivingAreaLabels[10], 1);
          }
        } else {
          if li < 12 {
            ForeignAt(LivingAreaLabels[11], 0);
          } else {
            ForeignAt(LivingAreaLabels[12], 4);
          }
        }
      }
    }
  }

  lemma {:induction false} LivingAreaRowClear()
    ensures RowClear(Group(LivingArea, LivingAreaLabels))
  {
    LivingAreaRowClearHead();
    LivingAreaRowClearTail();
    assert |LivingAreaLabels| == 13;
  }

  lemma {:induction false} CeilRowClear()
    ensures RowClear(Group(Ceil, CeilLabels))
  {
    forall li | 0 <= li < |CeilLabels|
      ensures Clear(Group(Ceil, CeilLabels), li)
    {
      if li < 2 {
        if li < 1 {
          ForeignAt(CeilLabels[0], 0);
        } else {
          ForeignAt(CeilLabels[1], 3);
        }
      } else {
        if li < 3 {
          ForeignAt(CeilLabels[2], 0);
        } else {
          if li < 4 {
            ForeignAt(CeilLabels[3], 0);
          } else {
            ForeignAt(CeilLabels[4], 0);
          }
        }
      }
    }
  }

  lemma {:induction false} FloorRowClear()
    ensures RowClear(Group(Floor, FloorLabels))
  {
    forall li | 0 <= li < |FloorLabels|
      ensures Clear(Group(Floor, FloorLabels), li)
    {
      if li < 3 {
        if li >= 1 {
          if li < 2 {
            ForeignAt(FloorLabels[1], 0);
          }
        }
      } else {
        if li < 4 {
          ForeignAt(FloorLabels[3], 0);
        } else {
          if li < 5 {
            ForeignAt(FloorLabels[4], 2);
          } else {
            ForeignAt(FloorLabels[5], 0);
          }
        }
      }
    }
  }

  lemma {:induction false} FinishingNameRowClear()
    ensures RowClear(Group(FinishingName, FinishingNameLabels))
  {
    forall li | 0 <= li < |FinishingNameLabels|
      ensures Clear(Group(FinishingName, FinishingNameLabels), li)
    {
      if li < 2 {
        if li < 1 {
          ForeignAt(FinishingNameLabels[0], 0);
        } else {
          ForeignAt(FinishingNameLabels[1], 3);
        }
      } else {
        if li < 3 {
          ForeignAt(FinishingNameLabels[2], 3);
        } else {
          if li < 4 {
            ForeignAt(FinishingNameLabels[3], 0);
          } else {
            ForeignAt(FinishingNameLabels[4], 0);
          }
        }
      }
    }
  }

  lemma {:induction false} PriceSaleRowClear()
    ensures RowClear(Group(PriceSale, PriceSaleLabels))
  {
    forall li | 0 <= li < |PriceSaleLabels|
      ensures Clear(Group(PriceSale, PriceSaleLabels), li)
    {
      if li < 1 {
        ForeignAt(PriceSaleLabels[0], 0);
      } else {
        ForeignAt(PriceSaleLabels[1], 4);
      }
    }
  }

  lemma {:induction false} PlanRowClear()
    ensures RowClear(Group(Plan, PlanLabels))
  {
    forall li | 0 <= li < |PlanLabels|
      ensures Clear(Group(Plan, PlanLabels), li)
    {
      if li < 4 {
        if li < 2 {
          if li < 1 {
            ForeignAt(PlanLabels[0], 1);
          } else {
            ForeignAt(PlanLabels[1], 0);
          }
        }
      } else {
        if li >= 6 {
          if li < 7 {
            ForeignAt(PlanLabels[6], 1);
          } else {
            ForeignAt(PlanLabels[7], 1);
          }
        }
      }
    }
  }

  lemma {:induction false} LevelRowClear()
    ensures RowClear(Group(Level, LevelLabels))
  {
    forall li | 0 <= li < |LevelLabels|
      ensures Clear(Group(Level, LevelLabels), li)
    {
      if li < 1 {
        ForeignAt(LevelLabels[0], 0);
      } else {
        ForeignAt(LevelLabels[1], 0);
      }
    }
  }

  lemma {:induction false} BalconRowClear()
    ensures RowClear(Group(Balcon, BalconLabels))
  {
    forall li | 0 <= li < |BalconLabels|
      ensures Clear(Group(Balcon, BalconLabels), li)
    {
      if li < 3 {
        if li < 1 {
          ForeignAt(BalconLabels[0], 0);
        } else {
          if li < 2 {
            ForeignAt(BalconLabels[1], 0);
          } else {
            ForeignAt(BalconLabels[2], 0);
          }
        }
      } else {
        if li < 5 {
          if li < 4 {
            ForeignAt(BalconLabels[3], 0);
          } else {
            ForeignAt(BalconLabels[4], 0);
          }
        } else {
          if li < 6 {
            ForeignAt(BalconLabels[5], 2);
          } else {
            ForeignAt(BalconLabels[6], 0);
          }
        }
      }
    }
  }

  lemma {:induction false} LoggiaRowClear()
    ensures RowClear(Group(Loggia, LoggiaLabels))
  {
    forall li | 0 <= li < |LoggiaLabels|
      ensures Clear(Group(Loggia, LoggiaLabels), li)
    {
      if li < 1 {
        ForeignAt(LoggiaLabels[0], 0);
      } else {
        if li < 2 {
          ForeignAt(LoggiaLabels[1], 2);
        } else {
          ForeignAt(LoggiaLabels[2], 0);
        }
      }
    }
  }

  lemma {:induction false} TerraceRowClear()
    ensures RowClear(Group(Terrace, TerraceLabels))
  {
    forall li | 0 <= li < |TerraceLabels|
      ensures Clear(Group(Terrace, TerraceLabels), li)
    {
      if li < 1 {
        ForeignAt(TerraceLabels[0], 0);
      } else {
        ForeignAt(TerraceLabels[1], 0);
      }
    }
  }

  lemma {:induction false} ViewRowClear()
    ensures RowClear(Group(View, ViewLabels))
  {
    forall li | 0 <= li < |ViewLabels|
      ensures Clear(Group(View, ViewLabels), li)
    {
      if li < 3 {
        if li < 1 {
          ForeignAt(ViewLabels[0], 0);
        }
      } else {
        if li >= 4 {
          if li < 5 {
            ForeignAt(ViewLabels[4], 0);
          } else {
            ForeignAt(ViewLabels[5], 2);
          }
        }
      }
    }
  }

  /** Every row of `method_by_names` is clear. */
  lemma {:induction false} ClassTableClear()
    ensures forall gi :: 0 <= gi < |MethodByNames| ==> RowClear(MethodByNames[gi])
  {
    forall gi | 0 <= gi < |MethodByNames|
      ensures RowClear(MethodByNames[gi])
    {
      if gi < 9 {
        if gi < 4 {
          if gi < 2 {
            if gi < 1 {
              InSaleRowClear();
            } else {
              RoomsRowClear();
            }
          } else {
            if gi < 3 {
              AreaRowClear();
            } else {
              PriceBaseRowClear();
            }
          }
        } else {
          if gi < 6 {
            if gi < 5 {
              BuildingRowClear();
            } else {
              NumberRowClear();
            }
          } else {
            if gi < 7 {
              NumberOnSiteRowClear();
            } else {
              if gi < 8 {
                SectionRowClear();
              } else {
                LivingAreaRowClear();
              }
            }
          }
        }
      } else {
        if gi < 14 {
          if gi < 11 {
            if gi < 10 {
              CeilRowClear();
            } else {
              FloorRowClear();
            }
          } else {
            if gi < 12 {
              FinishingNameRowClear();
            } else {
              if gi < 13 {
                PriceSaleRowClear();
              } else {
                PlanRowClear();
              }
            }
          }
        } else {
          if gi < 16 {
            if gi < 15 {
              LevelRowClear();
            } else {
              BalconRowClear();
            }
          } else {
            if gi < 17 {
              LoggiaRowClear();
            } else {
              if gi < 18 {
                TerraceRowClear();
              } else {
                ViewRowClear();
              }
            }
          }
        }
      }
    }
  }
}
