/** The sheet of identity cards (client/adminpanel/site/idcards/scripts.js:54-57 and 180-269). */
module IdCards {

  function Along(pitch: real, k: int): real { pitch * k as real }

  /** Sizes of page, card and margins along one axis. */
  datatype Axis = Axis(page: real, offset: real, card: real, margin: real) {

    ghost predicate Valid() {
      card > 0.0 && margin >= 0.0 && offset >= 0.0
    }

    /** AMOUNT_X and AMOUNT_Y */
    function Amount(): int
      requires Valid()
    {
      ((page - offset + margin) / (card + margin)).Floor
    }

    /** xpos and ypos */
    function Start(k: int): real {
      offset + Along(margin + card, k)
    }

    function End(k: int): real { Start(k) + card }
  }

  /** A card at most on the page, at least at the offset. */
  predicate OnPage(a: Axis, k: int) {
    a.offset <= a.Start(k) && a.End(k) <= a.page
  }

  lemma FloorAtLeast(q: real, n: int)
    ensures n <= q.Floor <==> n as real <= q
  {
  }

  /** The two multiplication steps: pitch is the distance from one card to the next. */
  lemma ProductOrder(x: real, q: real, c: real)
    requires c > 0.0
    ensures x <= q <==> x * c <= q * c
  {
    if x <= q {
      ProductNonNegative(q - x, c);
      assert (q - x) * c == q * c - x * c;
    } else {
      ProductPositive(x - q, c);
      assert (x - q) * c == x * c - q * c;
    }
  }

  lemma ProductNonNegative(x: real, c: real)
    requires x >= 0.0 && c >= 0.0
    ensures x * c >= 0.0
  {
  }

  lemma ProductPositive(x: real, c: real)
    requires x > 0.0 && c > 0.0
    ensures x * c > 0.0
  {
  }

  lemma QuotientTimes(y: real, c: real)
    requires c > 0.0
    ensures (y / c) * c == y
  {
  }

  lemma QuotientAtLeast(x: real, y: real, c: real)
    requires c > 0.0
    ensures x <= y / c <==> x * c <= y
  {
    QuotientTimes(y, c);
    ProductOrder(x, y / c, c);
  }

  lemma AlongNext(pitch: real, k: nat)
    requires pitch > 0.0
    ensures (k + 1) as real * pitch == Along(pitch, k) + pitch
    ensures Along(pitch, k) >= 0.0
  {
    ProductNonNegative(k as real, pitch);
    assert (k + 1) as real == k as real + 1.0;
    Commute(pitch, k as real);
    OneMore(k as real, pitch);
  }

  lemma Commute(x: real, y: real)
    ensures x * y == y * x
  {
  }

  lemma OneMore(x: real, c: real)
    ensures (x + 1.0) * c == x * c + c
  {
  }

  /** The amount is exact: the k-th card lies on the page if and only if k is below the amount. */
  lemma FitsIff(a: Axis, k: nat)
    requires a.Valid()
    ensures OnPage(a, k) <==> k < a.Amount()
  {
    var pitch, room := a.margin + a.card, a.page - a.offset + a.margin;
    AlongNext(pitch, k);
    FitsInRoom(room, pitch, k);
    assert a.Amount() == (room / pitch).Floor;
  }

  lemma FitsInRoom(room: real, pitch: real, k: nat)
    requires pitch > 0.0
    ensures k < (room / pitch).Floor <==> (k + 1) as real * pitch <= room
  {
    FloorAtLeast(room / pitch, k + 1);
    QuotientAtLeast((k + 1) as real, room, pitch);
  }

  /** Different positions are at least a margin apart. */
  lemma Apart(a: Axis, j: int, k: int)
    requires a.Valid() && j < k
    ensures a.End(j) + a.margin <= a.Start(k)
  {
    Steps(a.margin + a.card, j, k);
  }

  lemma Steps(pitch: real, j: int, k: int)
    requires pitch > 0.0 && j < k
    ensures Along(pitch, k) >= Along(pitch, j) + pitch
  {
    assert pitch * k as real - pitch * j as real == pitch * (k - j) as real;
    ScaleUp(pitch, (k - j) as real);
  }

  lemma ScaleUp(pitch: real, n: real)
    requires pitch > 0.0 && n >= 1.0
    ensures pitch * n >= pitch
  {
  }

  /** Where a card is: page, row and column, all counted from 0. */
  datatype Place = Place(page: int, y: int, x: int)

  /** AMOUNT_X and AMOUNT_Y are columns and rows. */
  datatype Layout = Layout(h: Axis, v: Axis, columns: int, rows: int) {

    ghost predicate Valid() {
      h.Valid() && v.Valid() && columns == h.Amount() && rows == v.Amount()
    }

    predicate Has(p: Place) {
      0 <= p.page && 0 <= p.y < rows && 0 <= p.x < columns
    }

    /** The index in the list that the loops compute. */
    function Index(p: Place): int {
      columns * rows * p.page + columns * p.y + p.x
    }
  }

  datatype Student = Student(qrid: string, hasPicture: bool)

  /** A drawn card, with the coordinates of its upper left corner. */
  datatype Card = Card(student: Student, at: Place, xpos: real, ypos: real)

  function CardAt(l: Layout, student: Student, p: Place): Card {
    Card(student, p, l.h.Start(p.x), l.v.Start(p.y))
  }

  function Pictures(list: seq<Student>): nat {
    if list == [] then 0 else Pictures(list[..|list| - 1]) + if list[|list| - 1].hasPicture then 1 else 0
  }

  /** The cards show the first elements of the list, each at the place with its own index. */
  ghost predicate Shows(l: Layout, cards: seq<Card>, list: seq<Student>)
  {
    && |cards| <= |list|
    && forall i :: 0 <= i < |cards| ==>
         l.Has(cards[i].at) && l.Index(cards[i].at) == i && cards[i] == CardAt(l, list[i], cards[i].at)
  }

  class Pdf {
    var pages: nat
    var cards: seq<Card>
    var passpicsToLoad: nat

    constructor ()
      ensures pages == 1 && cards == [] && passpicsToLoad == 0
    {
      pages, cards, passpicsToLoad := 1, [], 0;
    }

    method AddPage()
      modifies this`pages
      ensures pages == old(pages) + 1
    {
      pages := pages + 1;
    }

    /** render_student_card, as far as places and the picture counter go. */
    method RenderStudentCard(student: Student, at: Place, xpos: real, ypos: real)
      modifies this`cards, this`passpicsToLoad
      ensures cards == old(cards) + [Card(student, at, xpos, ypos)]
      ensures passpicsToLoad == old(passpicsToLoad) + if student.hasPicture then 1 else 0
    {
      cards := cards + [Card(student, at, xpos, ypos)];
      if student.hasPicture {
        passpicsToLoad := passpicsToLoad + 1;
      }
    }

    /** Everything before place p has been drawn. */
    ghost predicate DrawnUpTo(l: Layout, list: seq<Student>, p: Place)
      reads this
    {
      && |cards| == l.Index(p) && Shows(l, cards, list)
      && passpicsToLoad == Pictures(list[..|cards|])
    }

    /** One row of a page; done if the list has ended. */
    method RenderRow(l: Layout, list: seq<Student>, page: int, y: int) returns (done: bool)
      requires l.columns >= 1 && 0 <= page && 0 <= y < l.rows && DrawnUpTo(l, list, Place(page, y, 0))
      modifies this`cards, this`passpicsToLoad
      ensures Shows(l, cards, list) && passpicsToLoad == Pictures(list[..|cards|])
      ensures done ==> |cards| == |list| && exists x :: 0 <= x < l.columns && |list| == l.Index(Place(page, y, x))
      ensures !done ==> DrawnUpTo(l, list, Place(page, y, l.columns))
      ensures !done ==> |cards| > old(|cards|)
    {
      var x := 0;
      while x < l.columns
        invariant 0 <= x <= l.columns && |cards| == old(|cards|) + x
        invariant DrawnUpTo(l, list, Place(page, y, x))
      {
        var index := l.Index(Place(page, y, x));
        if index >= |list| {
          return true;
        }
        ShowsNext(l, cards, list, Place(page, y, x));
        PicturesNext(list, index);
        RenderStudentCard(list[index], Place(page, y, x), l.h.Start(x), l.v.Start(y));
        NextIndex(l, page, y, x);
        x := x + 1;
      }
      return false;
    }

    /** render_students: with room for at least one card it ends, having drawn every element once and in
        order; a list that fills its last page leaves an empty page behind. */
    method RenderStudents(l: Layout, list: seq<Student>)
      requires l.columns >= 1 && l.rows >= 1
      requires cards == [] && pages == 1
      modifies this
      ensures |cards| == |list| && Shows(l, cards, list)
      ensures passpicsToLoad == Pictures(list)
      ensures pages == |list| / (l.columns * l.rows) + 1
    {
      passpicsToLoad := 0;
      var page := 0;
      while true
        invariant 0 <= page && pages == page + 1 && DrawnUpTo(l, list, Place(page, 0, 0))
        decreases |list| - |cards|
      {
        ghost var before := |cards|;
        var y := 0;
        while y < l.rows
          invariant 0 <= y <= l.rows && |cards| >= before + y && pages == page + 1
          invariant DrawnUpTo(l, list, Place(page, y, 0))
        {
          var done := RenderRow(l, list, page, y);
          if done {
            assert list[..|cards|] == list;
            LastPage(l, list, page, y);
            return;
          }
          NextIndex(l, page, y, 0);
          y := y + 1;
        }
        NextIndex(l, page, y, 0);
        AddPage();
        page := page + 1;
      }
    }
  }

  lemma ShowsNext(l: Layout, cards: seq<Card>, list: seq<Student>, p: Place)
    requires Shows(l, cards, list) && l.Has(p) && l.Index(p) == |cards| < |list|
    ensures Shows(l, cards + [CardAt(l, list[|cards|], p)], list)
  {
  }

  lemma PicturesNext(list: seq<Student>, i: nat)
    requires i < |list|
    ensures Pictures(list[..i + 1]) == Pictures(list[..i]) + if list[i].hasPicture then 1 else 0
  {
    assert list[..i + 1][..i] == list[..i];
  }

  /** How the index moves on to the next column, row and page. */
  lemma NextIndex(l: Layout, page: int, y: int, x: int)
    ensures l.Index(Place(page, y, x + 1)) == l.Index(Place(page, y, x)) + 1
    ensures l.Index(Place(page, y + 1, 0)) == l.Index(Place(page, y, l.columns))
    ensures l.Index(Place(page + 1, 0, 0)) == l.Index(Place(page, l.rows, 0))
  {
  }

  lemma NoLess(x: int, y: int)
    requires x >= 0 && y >= 0
    ensures x * y >= 0
  {
  }

  lemma Difference(n: int, j: int, k: int)
    ensures n * (k - j) == n * k - n * j
  {
  }

  lemma ProductsApart(n: int, j: int, k: int)
    requires n >= 0 && j < k
    ensures n * j + n <= n * k
  {
    NoLess(n, k - (j + 1));
    Difference(n, j + 1, k);
    Difference(n, -1, j);
  }

  /** The rest of an index after its full pages. */
  lemma RestOfPage(columns: int, rows: int, y: int, x: int)
    requires 0 <= y < rows && 0 <= x < columns
    ensures 0 <= columns * y + x < columns * rows
  {
    NoLess(columns, y);
    ProductsApart(columns, y, rows);
  }

  lemma QuotientIs(n: int, page: int, rest: int)
    requires 0 <= rest < n
    ensures (n * page + rest) / n == page
  {
    var all := n * page + rest;
    UniqueQuotient(n, all / n, all % n, page, rest);
  }

  lemma UniqueQuotient(n: int, q: int, r: int, q': int, r': int)
    requires 0 <= r < n && 0 <= r' < n && n * q + r == n * q' + r'
    ensures q == q'
  {
    if q < q' {
      ProductsApart(n, q, q');
    } else if q' < q {
      ProductsApart(n, q', q);
    }
  }

  lemma LastPage(l: Layout, list: seq<Student>, page: int, y: int)
    requires exists x :: 0 <= x < l.columns && |list| == l.Index(Place(page, y, x))
    requires 0 <= page && 0 <= y < l.rows
    ensures l.columns * l.rows > 0 && |list| / (l.columns * l.rows) == page
  {
    var x :| 0 <= x < l.columns && |list| == l.Index(Place(page, y, x));
    RestOfPage(l.columns, l.rows, y, x);
    QuotientIs(l.columns * l.rows, page, l.columns * y + x);
  }

  // ---------- places ----------

  /** Reading order: by page, then by row, then by column. */
  predicate Precedes(p: Place, q: Place) {
    p.page < q.page || (p.page == q.page && (p.y < q.y || (p.y == q.y && p.x < q.x)))
  }

  lemma IndexMonotone(l: Layout, p: Place, q: Place)
    requires l.Has(p) && l.Has(q) && Precedes(p, q)
    ensures l.Index(p) < l.Index(q)
  {
    RestOfPage(l.columns, l.rows, p.y, p.x);
    RestOfPage(l.columns, l.rows, q.y, q.x);
    if p.page < q.page {
      ProductsApart(l.columns * l.rows, p.page, q.page);
    } else if p.y < q.y {
      ProductsApart(l.columns, p.y, q.y);
    }
  }

  /** Later elements of the list come later in reading order: no two cards share a place. */
  lemma CardsAreInOrder(l: Layout, cards: seq<Card>, list: seq<Student>, i: nat, j: nat)
    requires Shows(l, cards, list) && i < j < |cards|
    ensures Precedes(cards[i].at, cards[j].at)
  {
    var p, q := cards[i].at, cards[j].at;
    if !Precedes(p, q) && p != q {
      IndexMonotone(l, q, p);
    }
  }

  /** The place that follows a place: one column further, or the next row, or the next page. */
  function NextPlace(l: Layout, p: Place): Place {
    if p.x + 1 < l.columns then Place(p.page, p.y, p.x + 1)
    else if p.y + 1 < l.rows then Place(p.page, p.y + 1, 0)
    else Place(p.page + 1, 0, 0)
  }

  lemma NextPlaceIndex(l: Layout, p: Place)
    requires l.Has(p)
    ensures l.Has(NextPlace(l, p)) && l.Index(NextPlace(l, p)) == l.Index(p) + 1
  {
    NextIndex(l, p.page, p.y, p.x);
    NextIndex(l, p.page, p.y, p.x + 1);
    NextIndex(l, p.page, p.y + 1, 0);
  }

  lemma IndexIsUnique(l: Layout, p: Place, q: Place)
    requires l.Has(p) && l.Has(q) && l.Index(p) == l.Index(q)
    ensures p == q
  {
    if Precedes(p, q) {
      IndexMonotone(l, p, q);
    } else if Precedes(q, p) {
      IndexMonotone(l, q, p);
    }
  }

  lemma StartSteps(a: Axis, k: int)
    ensures a.Start(0) == a.offset && a.Start(k + 1) == a.Start(k) + a.card + a.margin
  {
    assert (k + 1) as real == k as real + 1.0;
    Commute(a.margin + a.card, k as real);
    Commute(a.margin + a.card, k as real + 1.0);
    OneMore(k as real, a.margin + a.card);
  }

  /** The upper left corner of the area that cards may take. */
  predicate AtCorner(l: Layout, c: Card) {
    c.xpos == l.h.offset && c.ypos == l.v.offset
  }

  /** d is drawn one card and one margin to the right of c. */
  predicate RightOf(l: Layout, c: Card, d: Card) {
    d.xpos == c.xpos + l.h.card + l.h.margin && d.ypos == c.ypos
  }

  /** d is drawn at the left edge, one card and one margin below c. */
  predicate StartsRowBelow(l: Layout, c: Card, d: Card) {
    d.xpos == l.h.offset && d.ypos == c.ypos + l.v.card + l.v.margin
  }

  /** Where the cards are drawn: the first one in the corner of the first page, and each next one to the right of
      the one before, or after a full row at the left edge below it, or after a full page in the corner of the
      next page. */
  lemma CardsFollowEachOther(l: Layout, cards: seq<Card>, list: seq<Student>, i: nat)
    requires Shows(l, cards, list) && i < |cards|
    ensures cards[0].at == Place(0, 0, 0) && AtCorner(l, cards[0])
    ensures i + 1 < |cards| ==>
              var c, d := cards[i], cards[i + 1];
              && d.at == NextPlace(l, c.at)
              && (if d.at.page != c.at.page then AtCorner(l, d)
                  else if d.at.y != c.at.y then StartsRowBelow(l, c, d)
                  else RightOf(l, c, d))
  {
    IndexIsUnique(l, cards[0].at, Place(0, 0, 0));
    StartSteps(l.h, cards[i].at.x);
    StartSteps(l.v, cards[i].at.y);
    if i + 1 < |cards| {
      NextPlaceIndex(l, cards[i].at);
      IndexIsUnique(l, cards[i + 1].at, NextPlace(l, cards[i].at));
    }
  }

  /** The first column is drawn at the left edge and the first row at the top, on every page; of two cards on a page
      the later one stands further right in the same row, or further down. */
  lemma CardsReadLeftToRight(l: Layout, cards: seq<Card>, list: seq<Student>, i: nat, j: nat)
    requires l.Valid() && Shows(l, cards, list) && i < j < |cards|
    ensures var c, d := cards[i], cards[j];
      && (c.at.x == 0 ==> c.xpos == l.h.offset) && (c.at.y == 0 ==> c.ypos == l.v.offset)
      && (c.at.page == d.at.page ==>
            || (d.ypos == c.ypos && c.xpos + l.h.card + l.h.margin <= d.xpos)
            || c.ypos + l.v.card + l.v.margin <= d.ypos)
  {
    CardsAreInOrder(l, cards, list, i, j);
    var p, q := cards[i].at, cards[j].at;
    StartSteps(l.h, 0);
    StartSteps(l.v, 0);
    if p.page == q.page {
      if p.y < q.y {
        Apart(l.v, p.y, q.y);
      } else {
        Apart(l.h, p.x, q.x);
      }
    }
  }

  ghost predicate Disjoint(l: Layout, c: Card, d: Card) {
    || c.at.page != d.at.page
    || c.xpos + l.h.card + l.h.margin <= d.xpos || d.xpos + l.h.card + l.h.margin <= c.xpos
    || c.ypos + l.v.card + l.v.margin <= d.ypos || d.ypos + l.v.card + l.v.margin <= c.ypos
  }

  /** Cards lie within the page and do not overlap; any two on a page keep a margin between them. */
  lemma CardsDoNotOverlap(l: Layout, cards: seq<Card>, list: seq<Student>, i: nat, j: nat)
    requires l.Valid() && Shows(l, cards, list) && i < j < |cards|
    ensures Disjoint(l, cards[i], cards[j])
  {
    CardsAreInOrder(l, cards, list, i, j);
    var p, q := cards[i].at, cards[j].at;
    if p.page == q.page {
      if p.y < q.y {
        Apart(l.v, p.y, q.y);
      } else {
        Apart(l.h, p.x, q.x);
      }
    }
  }

  lemma CardsAreOnPage(l: Layout, cards: seq<Card>, list: seq<Student>, i: nat)
    requires l.Valid() && Shows(l, cards, list) && i < |cards|
    ensures var c := cards[i];
      && 0.0 <= l.h.offset <= c.xpos && c.xpos + l.h.card <= l.h.page
      && 0.0 <= l.v.offset <= c.ypos && c.ypos + l.v.card <= l.v.page
  {
    FitsIff(l.h, cards[i].at.x);
    FitsIff(l.v, cards[i].at.y);
  }

  /** The loops meet an index beyond the list, and so end, if and only if a card fits on the page. */
  lemma EndsIffOneFits(l: Layout, n: nat)
    requires l.Valid()
    ensures (exists p :: l.Has(p) && l.Index(p) >= n) <==> OnPage(l.h, 0) && OnPage(l.v, 0)
  {
    FitsIff(l.h, 0);
    FitsIff(l.v, 0);
    if l.columns >= 1 && l.rows >= 1 {
      var p := Place(n, 0, 0);
      RestOfPage(l.columns, l.rows, 0, 0);
      assert l.columns * l.rows * n >= n;
      assert l.Has(p) && l.Index(p) >= n;
    }
  }
}
