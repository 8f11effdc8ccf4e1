/** The food item schema. Prices are modelled as `real`: the schema's
    `z.number()` is a double, and NaN and infinities are not modelled. */
module FoodItemSchema {
  import opened Common

  datatype FoodItemData = FoodItemData(
    name: string, description: Option<string>, category: string, price: real,
    supplierId: string, available: bool, imageUrl: Option<string>)

  predicate FoodItemValid(d: FoodItemData) {
    |d.name| >= 1 && |d.category| >= 1 && d.price >= 0.0 && |d.supplierId| >= 1
  }

  /** Name, category and supplier id must be non-empty and the price at least 0;
      description, image URL and availability never decide. */
  lemma FoodItemValidIff(d: FoodItemData)
    ensures FoodItemValid(d) <==> d.name != "" && d.category != "" && d.supplierId != "" && d.price >= 0.0
    ensures FoodItemValid(d) == FoodItemValid(d.(description := None, imageUrl := None, available := !d.available))
  {
  }

  /** A free item (price 0) is accepted; a negative price is not. */
  lemma ZeroPriceAccepted(d: FoodItemData)
    requires d.name != "" && d.category != "" && d.supplierId != ""
    ensures FoodItemValid(d.(price := 0.0))
    ensures !FoodItemValid(d.(price := -0.5))
  {
  }
}
