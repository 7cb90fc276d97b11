/** The built-in product catalogue and its filters (src/data/mockProducts.ts). */
module Catalogue {
  import opened Wrappers
  import opened Seqs
  import opened Text
  import opened Types

  function ImageUrl(photo: string): string {
    "https://images.unsplash.com/photo-" + photo + "?w=400&h=300&fit=crop"
  }

  const P1: Product := Product("1", "Красные розы \"Страсть\"", 15000, ImageUrl("1565485117423-84d0b0c1c34c"),
    Some("25 красных роз премиум класса, 60 см"), "Розы", true, Some(4.9), Some(true), None)
  const P2: Product := Product("2", "Белые розы \"Невеста\"", 18500, ImageUrl("1511799739531-40d9526b4e5d"),
    Some("31 белая роза, идеально для свадьбы и торжеств"), "Розы", true, Some(4.8), None, None)
  const P3: Product := Product("3", "Микс роз \"Радуга\"", 12000, ImageUrl("1463320898766-4665b12aa1a4"),
    Some("21 роза разных цветов - яркий букет для особых моментов"), "Розы", true, Some(4.7), None, None)
  const P4: Product := Product("4", "Букет \"Нежность\"", 8500, ImageUrl("1520271348391-049dd132bb7c"),
    Some("Нежный букет из хризантем и роз"), "Смешанные", true, Some(4.6), Some(true), None)
  const P5: Product := Product("5", "Букет \"Весенний день\"", 9500, ImageUrl("1584464491033-06628f3a6b7b"),
    Some("Тюльпаны и нарциссы - дыхание весны"), "Весенние", true, Some(4.5), None, None)
  const P6: Product := Product("6", "Букет \"Романтика\"", 18000, ImageUrl("1518895949257-7621c3c786d7"),
    Some("Роскошная композиция из пионов и роз"), "Премиум", false, Some(5.0), None, None)
  const P7: Product := Product("7", "Открытка \"С днем рождения\"", 1500, ImageUrl("1621793490481-c1c0bb9e6e84"),
    Some("Красивая открытка ручной работы"), "Открытки", true, Some(4.3), None, None)
  const P8: Product := Product("8", "Шоколадные конфеты", 3500, ImageUrl("1549007994-cb92caebd54b"),
    Some("Коробка бельгийского шоколада"), "Подарки", true, Some(4.4), None, None)

  /** `mockProducts`: the eight catalogue entries, in catalogue order. */
  const MockProducts: seq<Product> := [P1, P2, P3, P4, P5, P6, P7, P8]

  /** The search test on one product: its lower-cased name, description or category includes the
      lower-cased query. A product without a description is matched on its name and category only
      (every catalogue entry has one). */
  predicate MatchesQuery(p: Product, lowerQuery: string) {
    || Contains(Lower(p.name), lowerQuery)
    || (p.description.Some? && Contains(Lower(p.description.value), lowerQuery))
    || Contains(Lower(p.category), lowerQuery)
  }

  function InCategory(category: string): Product -> bool {
    (p: Product) => p.category == category
  }

  function IsPopular(p: Product): bool {
    p.isPopular == Some(true)
  }

  function Matching(lowerQuery: string): Product -> bool {
    (p: Product) => MatchesQuery(p, lowerQuery)
  }

  /** `getProductsByCategory(category)`: the entries whose category is exactly `category`
      (case-sensitive), in catalogue order. */
  function GetProductsByCategory(category: string): (r: seq<Product>)
    ensures forall p :: p in r <==> p in MockProducts && p.category == category
    ensures IsSubsequence(r, MockProducts)
  {
    FilterIsSubsequence(MockProducts, InCategory(category));
    Filter(MockProducts, InCategory(category))
  }

  /** `getPopularProducts()`: the entries flagged popular, in catalogue order. */
  function GetPopularProducts(): (r: seq<Product>)
    ensures forall p :: p in r <==> p in MockProducts && p.isPopular == Some(true)
    ensures IsSubsequence(r, MockProducts)
  {
    FilterIsSubsequence(MockProducts, IsPopular);
    Filter(MockProducts, IsPopular)
  }

  /** `searchProducts(query)`: the entries that match the lower-cased query, in catalogue order,
      all of them (no limit). */
  function SearchProducts(query: string): (r: seq<Product>)
    ensures forall p :: p in r <==> p in MockProducts && MatchesQuery(p, Lower(query))
    ensures IsSubsequence(r, MockProducts)
  {
    FilterIsSubsequence(MockProducts, Matching(Lower(query)));
    Filter(MockProducts, Matching(Lower(query)))
  }

  // ---------------------------------------------------------------------------
  // Facts about the fixed catalogue

  /** Every catalogue entry has a description, so the source's search never reads a missing one. */
  lemma AllHaveDescriptions()
    ensures forall p :: p in MockProducts ==> p.description.Some?
  {
  }

  /** Product ids are "1" to "8", so they are unique. */
  lemma CatalogueIdsUnique()
    ensures forall i, j :: 0 <= i < j < |MockProducts| ==> MockProducts[i].id != MockProducts[j].id
  {
  }

  /** The empty query matches every entry, so `searchProducts('')` is the whole catalogue. */
  lemma SearchEmptyIsAll()
    ensures SearchProducts("") == MockProducts
  {
    assert Lower("") == "";
    forall p | p in MockProducts
      ensures Matching("")(p)
    {
      ContainsEmpty(Lower(p.name));
    }
    FilterKeepsAll(MockProducts, Matching(""));
  }

  /** `getPopularProducts()` is entries 1 and 4. */
  lemma PopularAreOneAndFour()
    ensures GetPopularProducts() == [P1, P4]
  {
    FilterEight(P1, P2, P3, P4, P5, P6, P7, P8, IsPopular);
    assert Kept(P1, IsPopular) == [P1] && Kept(P4, IsPopular) == [P4];
    assert Kept(P2, IsPopular) == Kept(P3, IsPopular) == Kept(P5, IsPopular) == [];
    assert Kept(P6, IsPopular) == Kept(P7, IsPopular) == Kept(P8, IsPopular) == [];
  }

  /** A test that accepts entries 1-3 and rejects the rest keeps exactly entries 1-3. */
  lemma KeepsFirstThree(keep: Product -> bool)
    requires keep(P1) && keep(P2) && keep(P3)
    requires !keep(P4) && !keep(P5) && !keep(P6) && !keep(P7) && !keep(P8)
    ensures Filter(MockProducts, keep) == [P1, P2, P3]
  {
    FilterFirstThree(P1, P2, P3, P4, P5, P6, P7, P8, keep);
  }

  /** The category filter is exact: 'Розы' gives entries 1-3. */
  lemma CategoryRoses()
    ensures GetProductsByCategory("Розы") == [P1, P2, P3]
  {
    KeepsFirstThree(InCategory("Розы"));
  }

  /** The category filter is case-sensitive: 'розы' gives nothing. */
  lemma CategoryIsCaseSensitive()
    ensures GetProductsByCategory("розы") == []
  {
    var keep := InCategory("розы");
    FilterEight(P1, P2, P3, P4, P5, P6, P7, P8, keep);
    assert Kept(P1, keep) == Kept(P2, keep) == Kept(P3, keep) == Kept(P4, keep) == [];
    assert Kept(P5, keep) == Kept(P6, keep) == Kept(P7, keep) == Kept(P8, keep) == [];
  }

  /** A lower-case Cyrillic letter of `q` that `s` lacks in both cases rules out `Lower(s)`
      including `q`. */
  lemma LowerLacks(s: string, q: string, c: char)
    requires 'а' <= c <= 'я' && c in q
    requires c !in s && (c as int - 32) as char !in s
    ensures !Contains(Lower(s), q)
  {
    CyrillicLowerExcludes(s, c);
    NotContainsByChar(Lower(s), q, c);
  }

  /** `LowerLacks` for a string given in two pieces, so that each piece is checked on its own. */
  lemma LowerLacksSplit(a: string, b: string, q: string, c: char)
    requires 'а' <= c <= 'я' && c in q
    requires c !in a && (c as int - 32) as char !in a
    requires c !in b && (c as int - 32) as char !in b
    ensures !Contains(Lower(a + b), q)
  {
    LowerLacks(a + b, q, c);
  }

  /** `LowerLacks` for a string given in three pieces. */
  lemma LowerLacksSplit3(a: string, b: string, d: string, q: string, c: char)
    requires 'а' <= c <= 'я' && c in q
    requires c !in a && (c as int - 32) as char !in a
    requires c !in b && (c as int - 32) as char !in b
    requires c !in d && (c as int - 32) as char !in d
    ensures !Contains(Lower(a + b + d), q)
  {
    LowerLacks(a + b + d, q, c);
  }

  lemma LowerConcat(a: string, b: string)
    ensures Lower(a + b) == Lower(a) + Lower(b)
  {
  }

  lemma TenderTailLacksPairPieces()
    ensures "й букет из " + "хризантем и роз" == "й букет из хризантем и роз"
  {
  }

  lemma TenderTailLacksPair()
    ensures !Contains(Lower("й букет из хризантем и роз"), "зы")
  {
    TenderTailLacksPairPieces();
    TenderTailLacksPairHead();
    TenderTailLacksPairTail();
    LowerLacksSplit("й букет из ", "хризантем и роз", "зы", 'ы');
  }

  lemma TenderTailLacksPairHead()
    ensures 'ы' !in "й букет из " && 'Ы' !in "й букет из "
  {
  }

  lemma TenderTailLacksPairTail()
    ensures 'ы' !in "хризантем и роз" && 'Ы' !in "хризантем и роз"
  {
  }

  /** "Нежный букет из хризантем и роз" ends in 'роз' and contains 'ы', but never 'зы'. */
  lemma TenderBouquetLacksRoses()
    ensures !Contains(Lower("Нежный букет из хризантем и роз"), "розы")
  {
    var a, b := "Нежны", "й букет из хризантем и роз";
    assert a + b == "Нежный букет из хризантем и роз";
    LowerConcat(a, b);
    TenderHeadLacksPair();
    TenderTailLacksPair();
    if Contains(Lower(a + b), "розы") {
      assert "розы" == "ро" + "зы" + "";
      ContainsInfix("ро", "зы", "");
      ContainsTransitive(Lower(a + b), "розы", "зы");
      ContainsPairSplit(Lower(a), Lower(b), "зы");
      assert false;
    }
  }

  /** The head of entry 4's description, lower-cased, lacks the pair 'зы' that would end 'розы'. */
  lemma TenderHeadLacksPair()
    ensures !Contains(Lower("Нежны"), "зы") && Lower("Нежны")[4] == 'ы'
  {
    LowerLacks("Нежны", "зы", 'з');
  }

  lemma NameLacksRoses4()
    ensures !Contains(Lower("Букет \"Нежность\""), "розы")
  {
    LowerLacks("Букет \"Нежность\"", "розы", 'ы');
  }

  lemma CategoryLacksRoses4()
    ensures !Contains(Lower("Смешанные"), "розы")
  {
    LowerLacks("Смешанные", "розы", 'р');
  }

  lemma CategoryLacksRoses5()
    ensures !Contains(Lower("Весенние"), "розы")
  {
    LowerLacks("Весенние", "розы", 'р');
  }

  lemma NameLacksRoses6()
    ensures !Contains(Lower("Букет \"Романтика\""), "розы")
  {
    LowerLacks("Букет \"Романтика\"", "розы", 'з');
  }

  lemma CategoryLacksRoses6()
    ensures !Contains(Lower("Премиум"), "розы")
  {
    LowerLacks("Премиум", "розы", 'з');
  }

  lemma CategoryLacksRoses7()
    ensures !Contains(Lower("Открытки"), "розы")
  {
    LowerLacks("Открытки", "розы", 'з');
  }

  lemma NameLacksRoses8()
    ensures !Contains(Lower("Шоколадные конфеты"), "розы")
  {
    LowerLacks("Шоколадные конфеты", "розы", 'р');
  }

  lemma CategoryLacksRoses8()
    ensures !Contains(Lower("Подарки"), "розы")
  {
    LowerLacks("Подарки", "розы", 'ы');
  }

  /** Entries 1-3 match 'розы' through their category 'Розы'. */
  lemma RosesCategoryMatches()
    ensures MatchesQuery(P1, "розы") && MatchesQuery(P2, "розы") && MatchesQuery(P3, "розы")
  {
    assert Lower("Розы") == "розы";
    ContainsAt(Lower("Розы"), "розы", 0);
  }

  /** Entry 4 has 'розы' in no field. */
  lemma P4LacksRoses()
    ensures !MatchesQuery(P4, "розы")
  {
    NameLacksRoses4();
    TenderBouquetLacksRoses();
    CategoryLacksRoses4();
  }

  lemma NameLacksRoses5Pieces()
    ensures "Букет " + "\"Весенний день\"" == "Букет \"Весенний день\""
  {
  }

  lemma NameLacksRoses5()
    ensures !Contains(Lower("Букет \"Весенний день\""), "розы")
  {
    NameLacksRoses5Pieces();
    NameLacksRoses5Head();
    NameLacksRoses5Tail();
    LowerLacksSplit("Букет ", "\"Весенний день\"", "розы", 'р');
  }

  lemma NameLacksRoses5Head()
    ensures 'р' !in "Букет " && 'Р' !in "Букет "
  {
  }

  lemma NameLacksRoses5Tail()
    ensures 'р' !in "\"Весенний день\"" && 'Р' !in "\"Весенний день\""
  {
  }

  lemma DescriptionLacksRoses5Pieces()
    ensures "Тюльпаны и нарциссы " + "- дыхание весны" == "Тюльпаны и нарциссы - дыхание весны"
  {
  }

  lemma DescriptionLacksRoses5()
    ensures !Contains(Lower("Тюльпаны и нарциссы - дыхание весны"), "розы")
  {
    DescriptionLacksRoses5Pieces();
    DescriptionLacksRoses5Head();
    DescriptionLacksRoses5Tail();
    LowerLacksSplit("Тюльпаны и нарциссы ", "- дыхание весны", "розы", 'о');
  }

  lemma DescriptionLacksRoses5Head()
    ensures 'о' !in "Тюльпаны и нарциссы " && 'О' !in "Тюльпаны и нарциссы "
  {
  }

  lemma DescriptionLacksRoses5Tail()
    ensures 'о' !in "- дыхание весны" && 'О' !in "- дыхание весны"
  {
  }

  /** Entry 5 has 'розы' in no field. */
  lemma P5LacksRoses()
    ensures !MatchesQuery(P5, "розы")
  {
    NameLacksRoses5();
    DescriptionLacksRoses5();
    CategoryLacksRoses5();
  }

  lemma DescriptionLacksRoses6Pieces()
    ensures "Роскошная композиция " + "из пионов и роз" == "Роскошная композиция из пионов и роз"
  {
  }

  lemma DescriptionLacksRoses6()
    ensures !Contains(Lower("Роскошная композиция из пионов и роз"), "розы")
  {
    DescriptionLacksRoses6Pieces();
    DescriptionLacksRoses6Head();
    DescriptionLacksRoses6Tail();
    LowerLacksSplit("Роскошная композиция ", "из пионов и роз", "розы", 'ы');
  }

  lemma DescriptionLacksRoses6Head()
    ensures 'ы' !in "Роскошная композиция " && 'Ы' !in "Роскошная композиция "
  {
  }

  lemma DescriptionLacksRoses6Tail()
    ensures 'ы' !in "из пионов и роз" && 'Ы' !in "из пионов и роз"
  {
  }

  /** Entry 6 has 'розы' in no field. */
  lemma P6LacksRoses()
    ensures !MatchesQuery(P6, "розы")
  {
    NameLacksRoses6();
    DescriptionLacksRoses6();
    CategoryLacksRoses6();
  }

  lemma NameLacksRoses7Pieces()
    ensures "Открытка \"С " + "днем рождения\"" == "Открытка \"С днем рождения\""
  {
  }

  lemma NameLacksRoses7()
    ensures !Contains(Lower("Открытка \"С днем рождения\""), "розы")
  {
    NameLacksRoses7Pieces();
    NameLacksRoses7Head();
    NameLacksRoses7Tail();
    LowerLacksSplit("Открытка \"С ", "днем рождения\"", "розы", 'з');
  }

  lemma NameLacksRoses7Head()
    ensures 'з' !in "Открытка \"С " && 'З' !in "Открытка \"С "
  {
  }

  lemma NameLacksRoses7Tail()
    ensures 'з' !in "днем рождения\"" && 'З' !in "днем рождения\""
  {
  }

  lemma DescriptionLacksRoses7Pieces()
    ensures "Красивая открытка " + "ручной работы" == "Красивая открытка ручной работы"
  {
  }

  lemma DescriptionLacksRoses7()
    ensures !Contains(Lower("Красивая открытка ручной работы"), "розы")
  {
    DescriptionLacksRoses7Pieces();
    DescriptionLacksRoses7Head();
    DescriptionLacksRoses7Tail();
    LowerLacksSplit("Красивая открытка ", "ручной работы", "розы", 'з');
  }

  lemma DescriptionLacksRoses7Head()
    ensures 'з' !in "Красивая открытка " && 'З' !in "Красивая открытка "
  {
  }

  lemma DescriptionLacksRoses7Tail()
    ensures 'з' !in "ручной работы" && 'З' !in "ручной работы"
  {
  }

  /** Entry 7 has 'розы' in no field. */
  lemma P7LacksRoses()
    ensures !MatchesQuery(P7, "розы")
  {
    NameLacksRoses7();
    DescriptionLacksRoses7();
    CategoryLacksRoses7();
  }

  lemma DescriptionLacksRoses8Pieces()
    ensures "Коробка " + "бельгийского шоколада" == "Коробка бельгийского шоколада"
  {
  }

  lemma DescriptionLacksRoses8()
    ensures !Contains(Lower("Коробка бельгийского шоколада"), "розы")
  {
    DescriptionLacksRoses8Pieces();
    DescriptionLacksRoses8Head();
    DescriptionLacksRoses8Tail();
    LowerLacksSplit("Коробка ", "бельгийского шоколада", "розы", 'ы');
  }

  lemma DescriptionLacksRoses8Head()
    ensures 'ы' !in "Коробка " && 'Ы' !in "Коробка "
  {
  }

  lemma DescriptionLacksRoses8Tail()
    ensures 'ы' !in "бельгийского шоколада" && 'Ы' !in "бельгийского шоколада"
  {
  }

  /** Entry 8 has 'розы' in no field. */
  lemma P8LacksRoses()
    ensures !MatchesQuery(P8, "розы")
  {
    NameLacksRoses8();
    DescriptionLacksRoses8();
    CategoryLacksRoses8();
  }

  /** `searchProducts('розы')` is entries 1, 2 and 3: their category is 'Розы', and no other entry
      has 'розы' in any field. */
  lemma SearchRoses()
    ensures SearchProducts("розы") == [P1, P2, P3]
  {
    assert Lower("розы") == "розы";
    RosesCategoryMatches();
    P4LacksRoses();
    P5LacksRoses();
    P6LacksRoses();
    P7LacksRoses();
    P8LacksRoses();
    KeepsFirstThree(Matching("розы"));
  }
}
