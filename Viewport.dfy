/** The viewport-width breakpoints the page's layout uses (Tailwind's `md` and `lg`). */
module Viewport {
  /** Width in CSS pixels from which the `lg` layout applies. */
  const Lg: int := 1024
  /** Width in CSS pixels from which the `md` layout applies. */
  const Md: int := 768
}
