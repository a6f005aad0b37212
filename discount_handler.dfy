/** The checkout discount of class-mdm-discount-handler.php: the discount a
    user's stored tier gives (memoised per request and in a transient), the
    coupon block for carts holding loyalty products, the loyalty fee over the
    eligible subtotal and the clean-up of the plugin's own notices. */
module MdmDiscountHandler {
  import opened Php
  import opened Store
  import opened MdmProduct

  /** A discount: the tier label (ucfirst) and the whole percentage. */
  datatype DiscountInfo = DiscountInfo(tier: string, percentage: nat)

  /** The product behind a cart line: its id and unit price. */
  datatype ProductData = ProductData(id: int, price: real)

  /** A cart line; `data` is absent when the line lost its product. */
  datatype CartItem = CartItem(data: Option<ProductData>, quantity: int)

  datatype Fee = Fee(name: string, amount: real, taxable: bool)

  datatype NoticeKind = ErrorNotice | InfoNotice | SuccessNotice | OtherNotice(name: string)

  datatype Notice = Notice(kind: NoticeKind, text: string)

  /** What add_discount_fee stores in the session as `mdm_discount_info`. */
  datatype SessionInfo = SessionInfo(tier: string, percentage: nat, amount: real, eligibleSubtotal: real)

  /** What the handler reads and never writes during a request: the user
      meta, the product flags, the logged-in user (0 when logged out),
      whether a cart object exists, and the cart lines. */
  datatype Env = Env(userMeta: UserMeta, productMeta: ProductMeta, currentUser: int, hasCart: bool, items: seq<CartItem>)

  /** The two places get_user_discount remembers a result: the static
      per-request cache and the transients, per user; `None` is a stored
      `false`. */
  datatype Caches = Caches(memo: map<int, Option<DiscountInfo>>, transients: map<int, Option<DiscountInfo>>)

  /** What the handler changes: the discount caches, the applied coupons,
      the cart fees, the queued notices, the session entry and the
      re-entrancy flag of add_discount_fee. */
  datatype Checkout = Checkout(
    caches: Caches,
    coupons: seq<string>,
    fees: seq<Fee>,
    notices: seq<Notice>,
    session: Option<SessionInfo>,
    calculating: bool)

  // ---------------------------------------------------------------------
  // get_user_discount

  /** The fixed table of get_user_discount, by lower-case tier name. */
  const AvailableTiers: map<string, nat> := map["none" := 0, "bronze" := 5, "silver" := 10, "gold" := 15, "platinum" := 20]

  /** The discount a stored tier value gives: none for a falsy value or
      exactly 'None'; otherwise the lower-cased value must be a key of the
      table, and the label is that key with its first letter upper-cased. */
  function TierDiscount(tier: MetaValue): Option<DiscountInfo> {
    if !Truthy(tier) || tier == Str("None") then None
    else match tier
      case Num(_) => None
      case Str(s) =>
        var key := ToLower(s);
        if key in AvailableTiers then Some(DiscountInfo(UcFirst(key), AvailableTiers[key])) else None
  }

  /** No discount exactly for a falsy value, exactly 'None', or a value
      whose lower case is not one of the five tier names. */
  lemma TierDiscountNone(tier: MetaValue)
    ensures TierDiscount(tier) == None <==>
      !Truthy(tier) || tier == Str("None") || tier.Num? || ToLower(tier.s) !in {"none", "bronze", "silver", "gold", "platinum"}
  {
    if tier.Str? && !Truthy(tier) {
      assert ToLower(tier.s) == tier.s;
    }
  }

  /** A value whose lower case is one of the five tier names (other than
      'None' itself) gives that key's discount, labelled with the key with a
      capital first letter. */
  lemma TierDiscountKnown(s: string)
    requires s != "None" && ToLower(s) in AvailableTiers
    ensures TierDiscount(Str(s)) == Some(DiscountInfo(UcFirst(ToLower(s)), AvailableTiers[ToLower(s)]))
  {
    assert ToLower("") == "" && ToLower("0") == "0";
  }

  /** The five labels and percentages: None 0, Bronze 5, Silver 10, Gold 15
      and Platinum 20. */
  lemma TierTableEntries(key: string)
    requires key in AvailableTiers
    ensures key == "none" ==> UcFirst(key) == "None" && AvailableTiers[key] == 0
    ensures key == "bronze" ==> UcFirst(key) == "Bronze" && AvailableTiers[key] == 5
    ensures key == "silver" ==> UcFirst(key) == "Silver" && AvailableTiers[key] == 10
    ensures key == "gold" ==> UcFirst(key) == "Gold" && AvailableTiers[key] == 15
    ensures key == "platinum" ==> UcFirst(key) == "Platinum" && AvailableTiers[key] == 20
  {
  }

  lemma ToLowerLength(s: string)
    ensures |ToLower(s)| == |s|
  {
  }

  /** The lookup ignores case, except that exactly 'None' means no tier. */
  lemma TierDiscountCaseInsensitive(s: string, t: string)
    requires ToLower(s) == ToLower(t) && s != "None" && t != "None"
    ensures TierDiscount(Str(s)) == TierDiscount(Str(t))
  {
    if s == "" || s == "0" || t == "" || t == "0" {
      ToLowerLength(s);
      ToLowerLength(t);
      assert ToLower(s) == s && ToLower(t) == t;
    }
  }

  /** The result of get_user_discount and the caches it leaves. */
  datatype DiscountLookup = DiscountLookup(info: Option<DiscountInfo>, caches: Caches)

  /** get_user_discount: a user with a static-cache entry (a cached `false`
      included) gets it back; a stored transient other than `false` is copied
      into the static cache; otherwise the tier meta is read and the result,
      `false` included, is put into both caches. */
  function LookupDiscount(k: Caches, meta: UserMeta, u: int): (r: DiscountLookup)
    ensures u in r.caches.memo && r.caches.memo[u] == r.info
    ensures forall v :: v in k.memo ==> v in r.caches.memo && r.caches.memo[v] == k.memo[v]
  {
    if u in k.memo then DiscountLookup(k.memo[u], k)
    else if u in k.transients && k.transients[u].Some? then
      DiscountLookup(k.transients[u], k.(memo := k.memo[u := k.transients[u]]))
    else
      var d := TierDiscount(GetMeta(meta, u, TierKey));
      DiscountLookup(d, Caches(k.memo[u := d], k.transients[u := d]))
  }

  /** Memoisation: once a user's discount has been looked up, looking it up
      again returns the same value and changes nothing, whatever the user
      meta now says. */
  lemma LookupDiscountCached(k: Caches, meta: UserMeta, meta': UserMeta, u: int)
    ensures var r := LookupDiscount(k, meta, u);
      LookupDiscount(r.caches, meta', u) == DiscountLookup(r.info, r.caches)
  {
  }

  /** With nothing cached the discount is the one the stored tier gives. */
  lemma LookupDiscountFresh(k: Caches, meta: UserMeta, u: int)
    requires u !in k.memo && (u !in k.transients || k.transients[u] == None)
    ensures LookupDiscount(k, meta, u).info == TierDiscount(GetMeta(meta, u, TierKey))
  {
  }

  /** The current user's discount lookup. */
  function UserDiscount(c: Checkout, e: Env): DiscountLookup {
    LookupDiscount(c.caches, e.userMeta, e.currentUser)
  }

  // ---------------------------------------------------------------------
  // The cart

  /** A cart line with a product that is enabled for the loyalty discount. */
  predicate Eligible(item: CartItem, pm: ProductMeta) {
    item.data.Some? && IsDiscountEnabled(pm, item.data.value.id)
  }

  predicate HasLoyaltyProduct(items: seq<CartItem>, pm: ProductMeta) {
    exists i :: 0 <= i < |items| && Eligible(items[i], pm)
  }

  /** What a line adds to the eligible subtotal: price times quantity for an
      eligible line, nothing for the others. */
  function LineAmount(item: CartItem, pm: ProductMeta): real {
    if Eligible(item, pm) then item.data.value.price * item.quantity as real else 0.0
  }

  /** The eligible subtotal of the lines, first to last. */
  function EligibleSubtotal(items: seq<CartItem>, pm: ProductMeta): real {
    if items == [] then 0.0
    else EligibleSubtotal(items[..|items| - 1], pm) + LineAmount(items[|items| - 1], pm)
  }

  /** The subtotal of two runs of lines is the sum of their subtotals. */
  lemma {:induction false} EligibleSubtotalAppend(a: seq<CartItem>, b: seq<CartItem>, pm: ProductMeta)
    ensures EligibleSubtotal(a + b, pm) == EligibleSubtotal(a, pm) + EligibleSubtotal(b, pm)
    decreases |b|
  {
    if b == [] {
      assert a + b == a;
    } else {
      var b' := b[..|b| - 1];
      assert (a + b)[..|a + b| - 1] == a + b';
      EligibleSubtotalAppend(a, b', pm);
    }
  }

  /** Lines that are not eligible, including lines without a product,
      contribute nothing wherever they stand. */
  lemma IneligibleLineContributesNothing(a: seq<CartItem>, item: CartItem, b: seq<CartItem>, pm: ProductMeta)
    requires !Eligible(item, pm)
    ensures EligibleSubtotal(a + [item] + b, pm) == EligibleSubtotal(a + b, pm)
  {
    EligibleSubtotalAppend(a + [item], b, pm);
    EligibleSubtotalAppend(a, [item], pm);
    EligibleSubtotalAppend(a, b, pm);
    assert [item][..0] == [];
  }

  /** A positive subtotal needs an eligible line. */
  lemma {:induction false} PositiveSubtotalHasLoyaltyProduct(items: seq<CartItem>, pm: ProductMeta)
    requires EligibleSubtotal(items, pm) > 0.0
    ensures HasLoyaltyProduct(items, pm)
    decreases |items|
  {
    var n := |items| - 1;
    if !Eligible(items[n], pm) {
      PositiveSubtotalHasLoyaltyProduct(items[..n], pm);
      var i :| 0 <= i < n && Eligible(items[..n][i], pm);
      assert Eligible(items[i], pm);
    }
  }

  // ---------------------------------------------------------------------
  // Notices and labels

  /** The plugin's own notices: the text mentions 'Loyalty' and either
      'Discount' or 'Coupons'. */
  predicate OwnText(text: string) {
    Contains(text, "Loyalty") && (Contains(text, "Discount") || Contains(text, "Coupons"))
  }

  /** clear_discount_notices removes an own notice from the error, notice and
      success lists; notices of any other type stay. */
  predicate Cleared(n: Notice) {
    !n.kind.OtherNotice? && OwnText(n.text)
  }

  /** The notices that remain, in their order. */
  function ClearNotices(ns: seq<Notice>): seq<Notice> {
    if ns == [] then []
    else ClearNotices(ns[..|ns| - 1]) + (if Cleared(ns[|ns| - 1]) then [] else [ns[|ns| - 1]])
  }

  /** Exactly the notices that are not the plugin's own remain, and clearing
      twice is clearing once. */
  lemma {:induction false} ClearNoticesExact(ns: seq<Notice>)
    ensures forall n :: n in ClearNotices(ns) <==> n in ns && !Cleared(n)
    ensures ClearNotices(ClearNotices(ns)) == ClearNotices(ns)
    decreases |ns|
  {
    if ns != [] {
      var init := ns[..|ns| - 1];
      var last := ns[|ns| - 1];
      ClearNoticesExact(init);
      assert ns == init + [last];
      ClearNoticesAppend(ClearNotices(init), if Cleared(last) then [] else [last]);
      if !Cleared(last) {
        assert [last][..0] == [];
      }
    }
  }

  lemma {:induction false} ClearNoticesAppend(a: seq<Notice>, b: seq<Notice>)
    ensures ClearNotices(a + b) == ClearNotices(a) + ClearNotices(b)
    decreases |b|
  {
    if b == [] {
      assert a + b == a;
    } else {
      var b' := b[..|b| - 1];
      assert (a + b)[..|a + b| - 1] == a + b';
      ClearNoticesAppend(a, b');
    }
  }

  /** The label of the loyalty fee, also used in the coupon notice; a whole
      percentage prints without decimals. */
  function TierLabel(info: DiscountInfo): string {
    "Loyalty " + info.tier + " Tier Discount (" + NatToString(info.percentage) + "%)"
  }

  function CouponsRemovedMessage(info: DiscountInfo): string {
    "Coupons cannot be used with " + TierLabel(info) + "."
  }

  const CouponBlockedMessage := "Coupons cannot be used when " + "Loyalty Discount" + " is enabled for any product in your cart."

  lemma TierLabelMentions(info: DiscountInfo)
    ensures Contains(TierLabel(info), "Loyalty") && Contains(TierLabel(info), "Discount")
  {
    var pct := " (" + NatToString(info.percentage) + "%)";
    var head := "Loyalty " + info.tier + " Tier ";
    assert TierLabel(info) == head + "Discount" + pct;
    ContainsInfix(head, "Discount", pct);
    assert TierLabel(info)[0..7] == "Loyalty";
    ContainsAt(TierLabel(info), "Loyalty", 0);
  }

  lemma RemovedMessageMentions(info: DiscountInfo)
    ensures Contains(CouponsRemovedMessage(info), "Loyalty") && Contains(CouponsRemovedMessage(info), "Discount")
  {
    TierLabelMentions(info);
    ContainsWithin("Coupons cannot be used with ", TierLabel(info), ".", "Loyalty");
    ContainsWithin("Coupons cannot be used with ", TierLabel(info), ".", "Discount");
  }

  lemma BlockedMessageMentions()
    ensures Contains(CouponBlockedMessage, "Loyalty") && Contains(CouponBlockedMessage, "Discount")
  {
    var head, tail := "Coupons cannot be used when ", " is enabled for any product in your cart.";
    assert "Loyalty Discount"[0..7] == "Loyalty";
    ContainsAt("Loyalty Discount", "Loyalty", 0);
    ContainsWithin(head, "Loyalty Discount", tail, "Loyalty");
    assert "Loyalty Discount"[8..16] == "Discount";
    ContainsAt("Loyalty Discount", "Discount", 8);
    ContainsWithin(head, "Loyalty Discount", tail, "Discount");
  }

  /** Every notice the handler itself queues is one it clears later. */
  lemma OwnMessagesAreCleared(info: DiscountInfo)
    ensures Cleared(Notice(InfoNotice, CouponsRemovedMessage(info)))
    ensures Cleared(Notice(ErrorNotice, CouponBlockedMessage))
  {
    RemovedMessageMentions(info);
    BlockedMessageMentions();
  }

  // ---------------------------------------------------------------------
  // The hooks, on the checkout state

  datatype Decision = Decision(result: bool, after: Checkout)

  /** should_block_coupons: with a cart, a logged-in user and a discount,
      coupons are blocked when some line is a loyalty product. */
  function ShouldBlock(c: Checkout, e: Env): Decision {
    if !e.hasCart || e.currentUser == 0 then Decision(false, c)
    else
      var l := UserDiscount(c, e);
      if l.info == None then Decision(false, c.(caches := l.caches))
      else Decision(HasLoyaltyProduct(e.items, e.productMeta), c.(caches := l.caches))
  }

  /** The block in both directions; only the discount caches can change. */
  lemma ShouldBlockMeaning(c: Checkout, e: Env)
    ensures var d := ShouldBlock(c, e);
      (d.result <==> e.hasCart && e.currentUser != 0 && UserDiscount(c, e).info.Some?
                     && exists i :: 0 <= i < |e.items| && Eligible(e.items[i], e.productMeta))
      && d.after == c.(caches := d.after.caches)
  {
  }

  /** validate_coupon_for_loyalty: an invalid coupon stays invalid and
      nothing happens; a blocked coupon is refused with one error notice
      after the plugin's notices are cleared; otherwise the validity
      passes through. */
  function ValidateCoupon(valid: bool, c: Checkout, e: Env): Decision {
    if !valid then Decision(valid, c)
    else
      var b := ShouldBlock(c, e);
      if b.result then Decision(false, b.after.(notices := ClearNotices(b.after.notices) + [Notice(ErrorNotice, CouponBlockedMessage)]))
      else Decision(valid, b.after)
  }

  lemma ValidateCouponMeaning(valid: bool, c: Checkout, e: Env)
    ensures var d := ValidateCoupon(valid, c, e);
      (!valid ==> d == Decision(false, c))
      && (valid ==> d.result == !ShouldBlock(c, e).result)
      && d.after.coupons == c.coupons && d.after.fees == c.fees
  {
  }

  /** check_and_remove_coupons: with a logged-in user who has a discount,
      all coupons are removed, with one notice naming the discount, when the
      cart holds a loyalty product and some coupon is applied. */
  function CheckAndRemove(c: Checkout, e: Env): Checkout
    requires e.hasCart
  {
    if e.currentUser == 0 then c
    else
      var l := UserDiscount(c, e);
      if l.info == None then c.(caches := l.caches)
      else if HasLoyaltyProduct(e.items, e.productMeta) && c.coupons != [] then
        c.(caches := l.caches, coupons := [], notices := c.notices + [Notice(InfoNotice, CouponsRemovedMessage(l.info.value))])
      else c.(caches := l.caches)
  }

  /** Coupons are cleared, with exactly one notice, in exactly that case;
      otherwise coupons and notices stay. */
  lemma CheckAndRemoveMeaning(c: Checkout, e: Env)
    requires e.hasCart
    ensures var r := CheckAndRemove(c, e);
      var removes := e.currentUser != 0 && UserDiscount(c, e).info.Some?
                     && HasLoyaltyProduct(e.items, e.productMeta) && c.coupons != [];
      (removes ==> r.coupons == [] && |r.notices| == |c.notices| + 1 && r.notices[..|c.notices|] == c.notices)
      && (!removes ==> r.coupons == c.coupons && r.notices == c.notices)
      && r.fees == c.fees && r.session == c.session && r.calculating == c.calculating
  {
  }

  /** The loyalty discount on an eligible subtotal. */
  function DiscountAmount(info: DiscountInfo, subtotal: real): real {
    subtotal * (info.percentage as real / 100.0)
  }

  /** The part of add_discount_fee inside the try block, after the notices
      were cleared: with a logged-in user, a discount and a positive eligible
      subtotal, the session entry is stored, coupons are removed, and the
      negative fee is added. */
  function FeePass(c: Checkout, e: Env): Checkout
    requires e.hasCart
  {
    if e.currentUser == 0 then c
    else
      var l := UserDiscount(c, e);
      var sub := EligibleSubtotal(e.items, e.productMeta);
      if l.info == None || sub <= 0.0 then c.(caches := l.caches)
      else
        var info := l.info.value;
        var amount := DiscountAmount(info, sub);
        var c1 := c.(caches := l.caches, session := Some(SessionInfo(info.tier, info.percentage, amount, sub)));
        var c2 := CheckAndRemove(c1, e);
        c2.(fees := c2.fees + [Fee(TierLabel(info), -amount, true)])
  }

  /** add_discount_fee: nothing at all while a pass is already running, with
      no cart or with an empty cart; otherwise the pass runs with the flag
      set, and the flag is reset however the pass ends. */
  function AddDiscountFee(c: Checkout, e: Env): Checkout {
    if c.calculating || !e.hasCart || e.items == [] then c
    else
      var c1 := c.(calculating := true, notices := ClearNotices(c.notices));
      FeePass(c1, e).(calculating := false)
  }

  /** The fee a pass adds, when it adds one. */
  function DiscountFee(c: Checkout, e: Env): Option<Fee> {
    if c.calculating || !e.hasCart || e.items == [] || e.currentUser == 0 then None
    else
      var info := UserDiscount(c, e).info;
      var sub := EligibleSubtotal(e.items, e.productMeta);
      if info == None || sub <= 0.0 then None
      else Some(Fee(TierLabel(info.value), -DiscountAmount(info.value, sub), true))
  }

  /** The try block adds the fee and removes every coupon exactly when the
      user is logged in, has a discount and the eligible subtotal is
      positive; otherwise fees and coupons stay. The flag is untouched. */
  lemma {:induction false} FeePassMeaning(c: Checkout, e: Env)
    requires e.hasCart
    ensures var r := FeePass(c, e);
      var info := if e.currentUser == 0 then None else UserDiscount(c, e).info;
      var sub := EligibleSubtotal(e.items, e.productMeta);
      && r.calculating == c.calculating
      && (info.Some? && sub > 0.0 ==>
            r.fees == c.fees + [Fee(TierLabel(info.value), -DiscountAmount(info.value, sub), true)] && r.coupons == [])
      && (!(info.Some? && sub > 0.0) ==> r.fees == c.fees && r.coupons == c.coupons)
  {
    if e.currentUser != 0 {
      var l := UserDiscount(c, e);
      var sub := EligibleSubtotal(e.items, e.productMeta);
      if l.info.Some? && sub > 0.0 {
        PositiveSubtotalHasLoyaltyProduct(e.items, e.productMeta);
        var info := l.info.value;
        var c1 := c.(caches := l.caches, session := Some(SessionInfo(info.tier, info.percentage, DiscountAmount(info, sub), sub)));
        LookupDiscountCached(c.caches, e.userMeta, e.userMeta, e.currentUser);
        assert UserDiscount(c1, e) == DiscountLookup(l.info, c1.caches);
        var c2 := CheckAndRemove(c1, e);
        assert c2.coupons == [] && c2.fees == c.fees;
      }
    }
  }

  /** A pass adds at most one fee, exactly the loyalty fee, and only in the
      source's case; the flag is what it was before; and when the fee is
      added no coupon is left on the cart. */
  lemma AddDiscountFeeMeaning(c: Checkout, e: Env)
    ensures var r := AddDiscountFee(c, e);
      && r.calculating == c.calculating
      && r.fees == c.fees + (match DiscountFee(c, e) case Some(f) => [f] case None => [])
      && (DiscountFee(c, e).Some? ==> r.coupons == [])
      && (DiscountFee(c, e).None? ==> r.coupons == c.coupons)
  {
    if !(c.calculating || !e.hasCart || e.items == []) {
      var c1 := c.(calculating := true, notices := ClearNotices(c.notices));
      FeePassMeaning(c1, e);
      assert c1.caches == c.caches;
    }
  }

  /** The cart of the example below: four of an enabled product at 50, one
      of a product that is not enabled and a line without a product. */
  lemma ExampleCartSubtotal(pm: ProductMeta, items: seq<CartItem>)
    requires pm == map[7 := "yes"]
    requires items == [CartItem(Some(ProductData(7, 50.0)), 4), CartItem(Some(ProductData(8, 30.0)), 1), CartItem(None, 2)]
    ensures EligibleSubtotal(items, pm) == 200.0
  {
    assert items[..2] == items[..|items| - 1];
    assert items[..2][..1] == items[..1] == [items[0]];
    assert items[..1][..0] == [];
    assert LineAmount(items[0], pm) == 200.0;
    assert EligibleSubtotal(items[..1], pm) == 200.0;
    assert EligibleSubtotal(items[..2], pm) == 200.0;
  }

  lemma SilverLabel()
    ensures TierLabel(DiscountInfo("Silver", 10)) == "Loyalty Silver Tier Discount (10%)"
  {
    assert NatToString(10) == NatToString(1) + [DigitChar(0)] == "10";
  }

  /** A silver member whose eligible lines come to 200 gets a fee of -20
      labelled with the tier and percentage. */
  lemma SilverExample(c: Checkout, e: Env)
    requires !c.calculating && e.hasCart && e.currentUser != 0 && c.caches == Caches(map[], map[])
    requires GetMeta(e.userMeta, e.currentUser, TierKey) == Str("silver")
    requires e.productMeta == map[7 := "yes"]
    requires e.items == [CartItem(Some(ProductData(7, 50.0)), 4), CartItem(Some(ProductData(8, 30.0)), 1), CartItem(None, 2)]
    ensures DiscountFee(c, e) == Some(Fee("Loyalty Silver Tier Discount (10%)", -20.0, true))
  {
    assert ToLower("silver") == "silver";
    TierDiscountKnown("silver");
    TierTableEntries("silver");
    var info := DiscountInfo("Silver", 10);
    assert UserDiscount(c, e).info == Some(info);
    ExampleCartSubtotal(e.productMeta, e.items);
    SilverLabel();
  }

  /** Both syncs store a lower-case 'none' for a user below every threshold.
      The lookup turns away only the exact 'None', and 'none' is a key of
      the table, so such a user has a truthy 0% discount: coupons are
      blocked on a cart with a loyalty product, and a pass over a positive
      eligible subtotal adds a fee of 0 and removes the coupons. */
  lemma LowercaseNoneIsZeroDiscount(c: Checkout, e: Env)
    requires GetMeta(e.userMeta, e.currentUser, TierKey) == Str("none")
    requires e.currentUser !in c.caches.memo && e.currentUser !in c.caches.transients
    ensures UserDiscount(c, e).info == Some(DiscountInfo("None", 0))
    ensures e.hasCart && e.currentUser != 0 && HasLoyaltyProduct(e.items, e.productMeta) ==> ShouldBlock(c, e).result
    ensures !c.calculating && e.hasCart && e.items != [] && e.currentUser != 0 && EligibleSubtotal(e.items, e.productMeta) > 0.0 ==>
      DiscountFee(c, e).Some? && DiscountFee(c, e).value.amount == 0.0
  {
    assert ToLower("none") == "none";
    TierDiscountKnown("none");
    TierTableEntries("none");
  }

  // ---------------------------------------------------------------------
  // The handler's hooks, on the plugin's state

  class DiscountHandler {
    const env: Env
    var memo: map<int, Option<DiscountInfo>>
    var transients: map<int, Option<DiscountInfo>>
    var coupons: seq<string>
    var fees: seq<Fee>
    var notices: seq<Notice>
    var session: Option<SessionInfo>
    var calculating: bool

    function State(): Checkout
      reads this
    {
      Checkout(Caches(memo, transients), coupons, fees, notices, session, calculating)
    }

    constructor (env0: Env, c0: Checkout)
      ensures env == env0 && State() == c0
    {
      env := env0;
      memo, transients, coupons, fees, notices, session, calculating :=
        c0.caches.memo, c0.caches.transients, c0.coupons, c0.fees, c0.notices, c0.session, c0.calculating;
    }

    /** get_user_discount. */
    method GetUserDiscount(u: int) returns (info: Option<DiscountInfo>)
      modifies this
      ensures var l := LookupDiscount(old(State()).caches, env.userMeta, u);
        info == l.info && State() == old(State()).(caches := l.caches)
    {
      if u in memo {
        return memo[u];
      }
      if u in transients && transients[u] != None {
        memo := memo[u := transients[u]];
        return transients[u];
      }
      var discountTier := GetMeta(env.userMeta, u, TierKey);
      info := TierDiscount(discountTier);
      memo := memo[u := info];
      transients := transients[u := info];
    }

    /** The foreach over the cart lines that stops at the first loyalty
        product. */
    method FindLoyaltyProduct() returns (found: bool)
      ensures found == HasLoyaltyProduct(env.items, env.productMeta)
    {
      found := false;
      var i := 0;
      while i < |env.items|
        invariant 0 <= i <= |env.items|
        invariant forall j :: 0 <= j < i ==> !Eligible(env.items[j], env.productMeta)
      {
        var item := env.items[i];
        if item.data.Some? && IsDiscountEnabled(env.productMeta, item.data.value.id) {
          found := true;
          break;
        }
        i := i + 1;
      }
    }

    /** The foreach that sums the eligible lines. */
    method ComputeEligibleSubtotal() returns (subtotal: real)
      ensures subtotal == EligibleSubtotal(env.items, env.productMeta)
    {
      subtotal := 0.0;
      for i := 0 to |env.items|
        invariant subtotal == EligibleSubtotal(env.items[..i], env.productMeta)
      {
        var item := env.items[i];
        assert env.items[..i + 1][..i] == env.items[..i];
        if item.data.None? {
          continue;
        }
        var product := item.data.value;
        if !IsDiscountEnabled(env.productMeta, product.id) {
          continue;
        }
        subtotal := subtotal + product.price * item.quantity as real;
      }
      assert env.items[..|env.items|] == env.items;
    }

    /** should_block_coupons. */
    method ShouldBlockCoupons() returns (block: bool)
      modifies this
      ensures var d := ShouldBlock(old(State()), env);
        block == d.result && State() == d.after
    {
      if !env.hasCart || env.currentUser == 0 {
        return false;
      }
      var info := GetUserDiscount(env.currentUser);
      if info == None {
        return false;
      }
      block := FindLoyaltyProduct();
    }

    /** clear_discount_notices: drops the plugin's own notices, in place. */
    method ClearDiscountNotices()
      modifies this
      ensures State() == old(State()).(notices := ClearNotices(old(notices)))
    {
      var kept: seq<Notice> := [];
      for i := 0 to |notices|
        invariant kept == ClearNotices(notices[..i])
      {
        assert notices[..i + 1][..i] == notices[..i];
        var n := notices[i];
        if !(!n.kind.OtherNotice? && Contains(n.text, "Loyalty") && (Contains(n.text, "Discount") || Contains(n.text, "Coupons"))) {
          kept := kept + [n];
        }
      }
      assert notices[..|notices|] == notices;
      notices := kept;
    }

    /** validate_coupon_for_loyalty. */
    method ValidateCouponForLoyalty(valid: bool) returns (result: bool)
      modifies this
      ensures var d := ValidateCoupon(valid, old(State()), env);
        result == d.result && State() == d.after
    {
      if !valid {
        return valid;
      }
      var block := ShouldBlockCoupons();
      if block {
        ClearDiscountNotices();
        notices := notices + [Notice(ErrorNotice, CouponBlockedMessage)];
        return false;
      }
      return valid;
    }

    /** check_and_remove_coupons. */
    method CheckAndRemoveCoupons()
      requires env.hasCart
      modifies this
      ensures State() == CheckAndRemove(old(State()), env)
    {
      if env.currentUser == 0 {
        return;
      }
      var info := GetUserDiscount(env.currentUser);
      if info == None {
        return;
      }
      var hasLoyaltyProducts := FindLoyaltyProduct();
      if hasLoyaltyProducts && coupons != [] {
        coupons := [];
        notices := notices + [Notice(InfoNotice, CouponsRemovedMessage(info.value))];
      }
    }

    /** add_discount_fee on the current cart. */
    method AddDiscountFeeToCart()
      modifies this
      ensures State() == AddDiscountFee(old(State()), env)
    {
      if calculating || !env.hasCart || env.items == [] {
        return;
      }
      calculating := true;
      ClearDiscountNotices();
      ghost var c1 := State();
      assert c1 == old(State()).(calculating := true, notices := ClearNotices(old(notices)));
      FeePassOnCart();
      assert State() == FeePass(c1, env).(calculating := true);
      calculating := false;
    }

    /** The try block of add_discount_fee, up to its early returns. */
    method FeePassOnCart()
      requires env.hasCart
      modifies this
      ensures State() == FeePass(old(State()), env)
    {
      if env.currentUser == 0 {
        return;
      }
      var info := GetUserDiscount(env.currentUser);
      ghost var l := UserDiscount(old(State()), env);
      ghost var c0 := State();
      assert c0 == old(State()).(caches := l.caches) && info == l.info;
      if info == None {
        return;
      }
      var eligibleSubtotal := ComputeEligibleSubtotal();
      if eligibleSubtotal <= 0.0 {
        return;
      }
      var d := info.value;
      var discountAmount := eligibleSubtotal * (d.percentage as real / 100.0);
      session := Some(SessionInfo(d.tier, d.percentage, discountAmount, eligibleSubtotal));
      ghost var c1 := State();
      assert discountAmount == DiscountAmount(d, eligibleSubtotal);
      assert c1.caches == c0.caches;
      assert c1.coupons == c0.coupons && c1.fees == c0.fees && c1.notices == c0.notices && c1.calculating == c0.calculating;
      assert c1 == c0.(session := Some(SessionInfo(d.tier, d.percentage, DiscountAmount(d, eligibleSubtotal), eligibleSubtotal)));
      CheckAndRemoveCoupons();
      ghost var c2 := State();
      assert c2 == CheckAndRemove(c1, env);
      fees := fees + [Fee(TierLabel(d), -discountAmount, true)];
      assert State() == c2.(fees := c2.fees + [Fee(TierLabel(d), -discountAmount, true)]);
    }
  }
}
