/** The per-product opt-in of class-mdm-product.php: the checkbox stored as
    product meta and the test the checkout discount applies to each product. */
module MdmProduct {
  import opened Php

  /** The product meta key `_mdm_loyalty_discount_enabled`, per product id;
      get_post_meta reads '' for a product that never had it written. */
  type ProductMeta = map<int, string>

  const DiscountEnabledKey := "_mdm_loyalty_discount_enabled"

  /** is_discount_enabled: a product id of zero (an invalid product) is never
      enabled; otherwise the stored flag must be exactly 'yes'. */
  predicate IsDiscountEnabled(meta: ProductMeta, productId: int) {
    productId != 0 && Lookup(meta, productId, "") == "yes"
  }

  /** The value save_loyalty_discount_field stores for the checkbox. */
  function CheckboxValue(posted: bool): (v: string)
    ensures v == "yes" || v == "no"
  {
    if posted then "yes" else "no"
  }

  /** Enabled means: a non-zero id whose flag was written, and written as 'yes'.
      Products are opt-in, and an unwritten flag never enables a product. */
  lemma IsDiscountEnabledMeaning(meta: ProductMeta, productId: int)
    ensures IsDiscountEnabled(meta, productId) <==> productId != 0 && productId in meta && meta[productId] == "yes"
    ensures productId == 0 || productId !in meta ==> !IsDiscountEnabled(meta, productId)
  {
  }

  /** Saving the checkbox and reading the flag back gives exactly "the
      checkbox was posted" (for a valid product id), and no other product's
      flag changes. */
  lemma SaveThenEnabled(meta: ProductMeta, postId: int, posted: bool, other: int)
    requires postId != 0
    ensures IsDiscountEnabled(meta[postId := CheckboxValue(posted)], postId) == posted
    ensures other != postId ==> IsDiscountEnabled(meta[postId := CheckboxValue(posted)], other) == IsDiscountEnabled(meta, other)
  {
  }

  class Product {
    var meta: ProductMeta

    constructor (meta0: ProductMeta)
      ensures meta == meta0
    {
      meta := meta0;
    }

    /** save_loyalty_discount_field: 'yes' when the checkbox was posted,
        'no' otherwise, whatever was stored before. */
    method SaveLoyaltyDiscountField(postId: int, posted: bool)
      modifies this
      ensures meta == old(meta)[postId := CheckboxValue(posted)]
    {
      var loyaltyDiscount := if posted then "yes" else "no";
      meta := meta[postId := loyaltyDiscount];
    }
  }
}
