// The two-component value used for sizes and coordinates.
module Vec2s {

  /** `Vec2<T>`: two values of the same nature (width and height, x and y). */
  datatype Vec2<T> = Vec2(x: T, y: T)

  /** `Vec2::new`: both components are stored as given. */
  function New<T>(x: T, y: T): (v: Vec2<T>)
    ensures v.x == x && v.y == y
  {
    Vec2(x, y)
  }

  /** `Vec2::convert`: each component goes through the conversion on its own. */
  function Convert<T, U>(v: Vec2<T>, from: T -> U): (w: Vec2<U>)
    ensures w.x == from(v.x) && w.y == from(v.y)
  {
    Vec2(from(v.x), from(v.y))
  }

  /** The derived equality is componentwise. */
  lemma EqualityIsComponentwise<T>(a: Vec2<T>, b: Vec2<T>)
    ensures a == b <==> a.x == b.x && a.y == b.y
  {
  }

  /** Converting the integer vector (1, 2) to reals gives (1.0, 2.0). */
  lemma ConvertIntegersToReals()
    ensures Convert(New(1, 2), (i: int) => i as real) == New(1.0, 2.0)
  {
  }
}
