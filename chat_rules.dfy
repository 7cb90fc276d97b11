/** The pure string rules of the chat window (src/components/ChatInterface.tsx): the keyword tests
    that replace the remote assistant when it is unavailable, the test that decides whether an
    assistant reply gets products, and the order confirmation text. All tests run on the
    normalised message (trimmed and lower-cased). */
module ChatRules {
  import opened Wrappers
  import opened Text
  import opened Types
  import opened Seqs

  // ---------------------------------------------------------------------------
  // The keyword cascade used when the remote assistant gives no answer

  /** The rules of the cascade, named after the reply they give. */
  datatype Rule = Inventory | Roses | Bouquets | CartRule | Price | Delivery | OrderRule | Greeting | Help | Default

  /** The keyword test of each rule, taken on its own; the default rule always fires. */
  predicate Fires(r: Rule, text: string) {
    match r
    case Inventory => Contains(text, "наличии") || Contains(text, "есть") || Contains(text, "ассортимент")
    case Roses => Contains(text, "розы") || Contains(text, "роз")
    case Bouquets => Contains(text, "букет") || Contains(text, "цветы")
    case CartRule => Contains(text, "корзин")
    case Price => Contains(text, "цена") || Contains(text, "стоимость") || Contains(text, "сколько")
    case Delivery => Contains(text, "доставка") || Contains(text, "доставить")
    case OrderRule => Contains(text, "заказ") || Contains(text, "оформить")
    case Greeting => Contains(text, "привет") || Contains(text, "здравствуйте") || Contains(text, "добро")
    case Help => Contains(text, "помощь") || Contains(text, "помоги") || Contains(text, "как")
    case Default => true
  }

  /** The position of a rule in the cascade: earlier rules win. */
  function Rank(r: Rule): nat {
    match r
    case Inventory => 0
    case Roses => 1
    case Bouquets => 2
    case CartRule => 3
    case Price => 4
    case Delivery => 5
    case OrderRule => 6
    case Greeting => 7
    case Help => 8
    case Default => 9
  }

  /** The `if … else if …` chain: the rule whose reply the message gets. */
  function Classify(text: string): (r: Rule)
    ensures Fires(r, text)
    ensures forall q :: Rank(q) < Rank(r) ==> !Fires(q, text)
  {
    if Contains(text, "наличии") || Contains(text, "есть") || Contains(text, "ассортимент") then Inventory
    else if Contains(text, "розы") || Contains(text, "роз") then Roses
    else if Contains(text, "букет") || Contains(text, "цветы") then Bouquets
    else if Contains(text, "корзин") then CartRule
    else if Contains(text, "цена") || Contains(text, "стоимость") || Contains(text, "сколько") then Price
    else if Contains(text, "доставка") || Contains(text, "доставить") then Delivery
    else if Contains(text, "заказ") || Contains(text, "оформить") then OrderRule
    else if Contains(text, "привет") || Contains(text, "здравствуйте") || Contains(text, "добро") then Greeting
    else if Contains(text, "помощь") || Contains(text, "помоги") || Contains(text, "как") then Help
    else Default
  }

  /** The cascade is first-match: a rule is chosen exactly when it fires and no earlier rule does. */
  lemma ClassifyIsFirstMatch(text: string, r: Rule)
    ensures Classify(text) == r <==> Fires(r, text) && forall q :: Rank(q) < Rank(r) ==> !Fires(q, text)
  {
    RankInjective(Classify(text), r);
  }

  lemma RankInjective(a: Rule, b: Rule)
    ensures Rank(a) == Rank(b) ==> a == b
  {
  }

  /** 'сколько стоит доставка' asks about delivery, but the price rule comes first. */
  lemma DeliveryPriceQuestionGetsPrice()
    ensures Classify("сколько стоит доставка") == Price
  {
    var t := "сколько стоит доставка";
    DeliveryQuestionLacks();
    NotContainsByChar(t, "наличии", 'н');
    NotContainsByChar(t, "есть", 'е');
    NotContainsByChar(t, "ассортимент", 'р');
    NotContainsByChar(t, "розы", 'р');
    NotContainsByChar(t, "роз", 'р');
    NotContainsByChar(t, "букет", 'б');
    NotContainsByChar(t, "цветы", 'ц');
    NotContainsByChar(t, "корзин", 'р');
    ContainsAt(t, "сколько", 0);
  }

  lemma DeliveryQuestionLacks()
    ensures 'н' !in "сколько стоит доставка" && 'е' !in "сколько стоит доставка"
    ensures 'р' !in "сколько стоит доставка" && 'б' !in "сколько стоит доставка"
    ensures 'ц' !in "сколько стоит доставка"
  {
    DeliveryHeadLacks();
    DeliveryTailLacks();
    assert "сколько стоит доставка" == "сколько стоит " + "доставка";
  }

  lemma DeliveryHeadLacks()
    ensures 'н' !in "сколько стоит " && 'е' !in "сколько стоит " && 'р' !in "сколько стоит "
    ensures 'б' !in "сколько стоит " && 'ц' !in "сколько стоит "
  {
  }

  lemma DeliveryTailLacks()
    ensures 'н' !in "доставка" && 'е' !in "доставка" && 'р' !in "доставка"
    ensures 'б' !in "доставка" && 'ц' !in "доставка"
  {
  }

  /** The search a cascade reply runs for its products. */
  datatype SearchRequest = SearchRequest(query: string, maxResults: int)

  /** The rules whose reply carries products, and the search each runs. */
  function RuleSearch(r: Rule): Option<SearchRequest> {
    match r
    case Inventory => Some(SearchRequest("букеты цветы в наличии ассортимент", 8))
    case Roses => Some(SearchRequest("красивые розы красные белые букеты", 6))
    case Bouquets => Some(SearchRequest("красивые букеты цветы композиции", 6))
    case Price => Some(SearchRequest("недорогие букеты цены стоимость", 6))
    case _ => None
  }

  const DeliveryReply := "🚚 Доставка:\n\n• По Алматы: 2000₸ (2-4 часа)\n• По Астане: 2500₸ (3-5 часов)\n"
    + "• Бесплатная доставка при заказе от 15000₸\n• Срочная доставка (1-2 часа): +1000₸"
  const GreetingReply := "👋 Добро пожаловать в Cvety.kz!\n\nЯ помогу вам выбрать идеальный букет. Могу показать:\n"
    + "• 🌹 Розы\n• 🌸 Букеты\n• 💰 Цены\n• 🚚 Информацию о доставке\n\nЧто вас интересует?"
  const HelpReply := "🤖 Я могу помочь вам:\n\n• Показать букеты и розы\n• Рассказать о ценах\n"
    + "• Объяснить условия доставки\n• Помочь оформить заказ\n• Показать вашу корзину\n\n"
    + "Просто спросите: \"Покажи розы\" или \"Что есть в наличии?\""
  const DefaultReply := "🤖 AI сервис временно недоступен, но я могу помочь!\n\nПопробуйте спросить:\n"
    + "• \"Что есть в наличии?\"\n• \"Покажи розы\"\n• \"Сколько стоит доставка?\"\n• \"Помощь\""

  /** The text of each cascade reply. */
  function RuleReply(r: Rule): string {
    match r
    case Inventory => "🌸 Вот что у нас есть в наличии:"
    case Roses => "🌹 Вот наши прекрасные розы:"
    case Bouquets => "🌸 Показываю букеты по вашему запросу:"
    case CartRule => "🛒 Ваша корзина:"
    case Price => "💰 Цены на наши букеты:"
    case Delivery => DeliveryReply
    case OrderRule => "📝 Давайте оформим ваш заказ:"
    case Greeting => GreetingReply
    case Help => HelpReply
    case Default => DefaultReply
  }

  // ---------------------------------------------------------------------------
  // Products on an assistant reply

  /** `shouldShowProducts`: the user asks about products, or the reply (lower-cased) offers them. */
  predicate ShouldShowProducts(text: string, lowerReply: string) {
    Contains(text, "розы") || Contains(text, "букет") || Contains(text, "цветы") || Contains(text, "наличии")
    || Contains(text, "покажи") || Contains(text, "ассортимент")
    || Contains(lowerReply, "посмотрите") || Contains(lowerReply, "вот наши") || Contains(lowerReply, "показываю")
    || Contains(lowerReply, "каталог")
  }

  /** The product topics of an assistant reply, in their order of priority. */
  datatype Topic = RosesTopic | InventoryTopic | BouquetTopic

  /** The topic whose search supplies the products, or none. */
  function AiTopic(text: string, lowerReply: string): Option<Topic> {
    if Contains(lowerReply, "розы") || Contains(text, "розы") then Some(RosesTopic)
    else if Contains(text, "наличии") || Contains(text, "ассортимент") then Some(InventoryTopic)
    else if Contains(lowerReply, "букет") || Contains(text, "букет") || Contains(text, "цветы") then Some(BouquetTopic)
    else None
  }

  function TopicSearch(t: Topic): SearchRequest {
    match t
    case RosesTopic => SearchRequest("красивые розы букеты", 6)
    case InventoryTopic => SearchRequest("букеты цветы в наличии", 8)
    case BouquetTopic => SearchRequest("красивые букеты цветы", 6)
  }

  /** The search an assistant reply runs for its products: only when products are to be shown and
      a topic matches. */
  function AiSearch(text: string, lowerReply: string): (r: Option<SearchRequest>)
    ensures r.Some? ==> ShouldShowProducts(text, lowerReply) && AiTopic(text, lowerReply).Some?
  {
    if ShouldShowProducts(text, lowerReply) && AiTopic(text, lowerReply).Some? then
      Some(TopicSearch(AiTopic(text, lowerReply).value))
    else None
  }

  /** A message naming a product topic itself always gets products on an assistant reply. */
  lemma UserTopicGetsProducts(text: string, lowerReply: string)
    requires Contains(text, "розы") || Contains(text, "наличии") || Contains(text, "ассортимент")
          || Contains(text, "букет") || Contains(text, "цветы")
    ensures AiSearch(text, lowerReply).Some?
  {
  }

  /** 'покажи' alone asks for products but names no topic, so none are attached. */
  lemma ShowMeAloneGetsNoProducts()
    ensures ShouldShowProducts("покажи", "") && AiTopic("покажи", "") == None
    ensures AiSearch("покажи", "") == None
  {
    ContainsAt("покажи", "покажи", 0);
    NotContainsByChar("покажи", "розы", 'р');
    NotContainsByChar("покажи", "наличии", 'н');
    NotContainsByChar("покажи", "ассортимент", 'с');
    NotContainsByChar("покажи", "букет", 'б');
    NotContainsByChar("покажи", "цветы", 'ц');
  }

  /** The roses topic outranks inventory: a message naming both gets the roses search. */
  lemma RosesOutrankInventory(text: string, lowerReply: string)
    requires Contains(text, "розы") && Contains(text, "наличии")
    ensures AiSearch(text, lowerReply) == Some(SearchRequest("красивые розы букеты", 6))
  {
  }

  // ---------------------------------------------------------------------------
  // The order confirmation

  /** `CVT-` followed by the last six digits of the clock reading `now` in milliseconds. */
  function OrderNumber(now: nat): string {
    "CVT-" + SliceLast(NatToDecimal(now), 6)
  }

  /** From 100000 ms on, the order number is 'CVT-' and six digits whose value is `now` modulo
      one million; before, it is 'CVT-' and all the digits of `now`. */
  lemma OrderNumberShape(now: nat)
    ensures OrderNumber(now)[..4] == "CVT-"
    ensures now >= 100000 ==>
      && |OrderNumber(now)| == 10
      && OrderNumber(now)[4..] == PaddedDigits(now, 6)
      && DecimalValue(OrderNumber(now)[4..]) == now % 1000000
    ensures now < 100000 ==> OrderNumber(now) == "CVT-" + NatToDecimal(now)
  {
    var d := NatToDecimal(now);
    if now >= 100000 {
      assert Pow10(5) == 100000 && Pow10(6) == 1000000;
      DecimalSuffix(now, 6);
      PaddedDigitsValue(now, 6);
      assert OrderNumber(now)[4..] == SliceLast(d, 6);
    } else {
      assert Pow10(5) == 100000;
      DigitsBelow(now, 5);
    }
  }

  /** A number below `10^k` has at most `k` digits. */
  lemma {:induction false} DigitsBelow(n: nat, k: nat)
    requires k >= 1 && n < Pow10(k)
    ensures |NatToDecimal(n)| <= k
  {
    if n >= 10 {
      assert Pow10(1) == 10;
      assert k >= 2;
      DigitsBelow(n / 10, k - 1);
    }
  }

  /** The Kaspi payment link: the order number, the cart total as plain digits and the phone. */
  function KaspiLink(orderNumber: string, total: int, phone: string): string {
    Join(["https://kaspi.kz/pay?order=", orderNumber, "&amount=", IntToDecimal(total), "&phone=", phone])
  }

  /** The payment paragraph. `formattedTotal` is the total as `toLocaleString('ru-RU')` writes it. */
  function PaymentInfo(payment: PaymentMethod, orderNumber: string, total: int, phone: string,
                       formattedTotal: string): string
  {
    match payment
    case Kaspi =>
      Join(["💳 Ссылка для оплаты Kaspi отправлена на ", phone, "\n🔗 Или оплатите по ссылке: ",
            KaspiLink(orderNumber, total, phone), "\n💰 Сумма к оплате: ", formattedTotal, "₸"])
    case Cash => Join(["💵 Оплата наличными при получении: ", formattedTotal, "₸"])
  }

  /** The confirmation message of a placed order. */
  function Confirmation(orderNumber: string, form: OrderForm, paymentInfo: string): string {
    Join(["✅ Заказ #", orderNumber, " успешно оформлен!\n\n📱 SMS с деталями отправлено на ", form.phone,
          "\n🚚 Ожидайте доставку ", form.deliveryDate, " к ", form.deliveryTime, "\n\n", paymentInfo,
          "\n\n📞 Вопросы по заказу: +7 777 123 4567\n🔍 Отслеживать заказ: cvety.kz/track/", orderNumber])
  }

  /** A Kaspi payment text carries the order number, the phone and the total in plain digits; a
      cash one carries the formatted total. */
  lemma PaymentInfoMentions(payment: PaymentMethod, orderNumber: string, total: int, phone: string,
                            formattedTotal: string)
    ensures var info := PaymentInfo(payment, orderNumber, total, phone, formattedTotal);
      && Contains(info, formattedTotal)
      && (payment == Kaspi ==>
            Contains(info, orderNumber) && Contains(info, phone) && Contains(info, IntToDecimal(total)))
  {
    var info := PaymentInfo(payment, orderNumber, total, phone, formattedTotal);
    match payment {
      case Kaspi =>
        var link := KaspiLink(orderNumber, total, phone);
        var parts := ["💳 Ссылка для оплаты Kaspi отправлена на ", phone, "\n🔗 Или оплатите по ссылке: ",
                      link, "\n💰 Сумма к оплате: ", formattedTotal, "₸"];
        var linkParts := ["https://kaspi.kz/pay?order=", orderNumber, "&amount=", IntToDecimal(total), "&phone=", phone];
        JoinContainsPart(parts, 1);
        JoinContainsPart(parts, 3);
        JoinContainsPart(parts, 5);
        JoinContainsPart(linkParts, 1);
        JoinContainsPart(linkParts, 3);
        ContainsTransitive(info, link, orderNumber);
        ContainsTransitive(info, link, IntToDecimal(total));
      case Cash =>
        JoinContainsPart(["💵 Оплата наличными при получении: ", formattedTotal, "₸"], 1);
    }
  }

  /** The confirmation carries the order number, the phone, the delivery date and time, and the
      payment text. */
  lemma ConfirmationMentions(orderNumber: string, form: OrderForm, paymentInfo: string)
    ensures var c := Confirmation(orderNumber, form, paymentInfo);
      Contains(c, orderNumber) && Contains(c, form.phone) && Contains(c, form.deliveryDate)
      && Contains(c, form.deliveryTime) && Contains(c, paymentInfo)
  {
    var parts := ["✅ Заказ #", orderNumber, " успешно оформлен!\n\n📱 SMS с деталями отправлено на ", form.phone,
          "\n🚚 Ожидайте доставку ", form.deliveryDate, " к ", form.deliveryTime, "\n\n", paymentInfo,
          "\n\n📞 Вопросы по заказу: +7 777 123 4567\n🔍 Отслеживать заказ: cvety.kz/track/", orderNumber];
    JoinContainsPart(parts, 1);
    JoinContainsPart(parts, 3);
    JoinContainsPart(parts, 5);
    JoinContainsPart(parts, 7);
    JoinContainsPart(parts, 9);
  }
}
