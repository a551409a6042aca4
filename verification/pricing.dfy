/** The two money constants the cart, the checkout and the order pages share. */
module Pricing {

  /** Flat shipping charge shown on every summary. */
  const ShippingFee: real := 5.99

  /** Sales tax rate, 7%. */
  const TaxRate: real := 0.07
}
