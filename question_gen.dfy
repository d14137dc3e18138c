/** The battle question generator (src/store/useGameStore.ts:187-424). Every call to
    `Math.random` becomes the next entry of `draws`, a supply of numbers in [0, 1) consumed in the
    order the source evaluates them; the generator first chooses a problem from the draws and then
    renders it into the text, answer and hint the battle shows. */
module QuestionGen {
  import opened Wrappers
  import opened GameTypes
  import opened JsText
  import Progression

  /** What a battle asks: the prompt, the expected answer and an optional hint. */
  datatype Question = Question(text: string, correctAnswer: string, hint: Option<string>)

  datatype WordProblem = WordProblem(text: string, ans: string)

  datatype RusWord = RusWord(q: string, a: string, lvl: int, hint: Option<string>)

  /** Enough random numbers for the longest draw sequence (five, for a triangle's perimeter). */
  ghost predicate ValidDraws(draws: seq<real>)
  {
    |draws| >= 5 && forall i :: 0 <= i < |draws| ==> 0.0 <= draws[i] < 1.0
  }

  lemma ScaledFloor(u: real, n: int)
    requires 0.0 <= u < 1.0 && n >= 1
    ensures 0 <= (u * n as real).Floor < n
  {
    var x := u * n as real;
    assert 0.0 <= x;
    assert (n as real) - x == (1.0 - u) * (n as real);
    assert x < n as real;
  }

  /** `rnd(max, min)`: a uniform integer of [min, max] drawn from u. */
  function Rnd(max: int, min: int, u: real): (r: int)
    requires 0.0 <= u < 1.0
    ensures max >= min ==> min <= r <= max
  {
    if max >= min then ScaledFloor(u, max - min + 1); (u * (max - min + 1) as real).Floor + min
    else (u * (max - min + 1) as real).Floor + min
  }

  /** `pick(arr)`: an element of a non-empty array chosen by u. */
  function Pick<T>(arr: seq<T>, u: real): (r: T)
    requires |arr| > 0 && 0.0 <= u < 1.0
    ensures r in arr
  {
    ScaledFloor(u, |arr|);
    arr[(u * |arr| as real).Floor]
  }

  function Pow(b: int, e: nat): int
  {
    if e == 0 then 1 else b * Pow(b, e - 1)
  }

  // ---------------------------------------------------------------- problems

  /** A chosen problem: the drawn operands, one constructor per kind of question. */
  datatype Problem =
    | Sum(a: int, b: int)
    | Subtraction(a: int, b: int)
    | Product(a: int, b: int)
    | Division(divisor: int, quotient: int)
    | Equation(b: int, c: int)
    | FractionOf(num: int, den: int, k: int)
    | Negative(a: int, b: int)
    | SquareOf(n: int)
    | PercentOf(pct: int, k: int)
    | Word(w: WordProblem)
    | RectPerimeter(a: int, b: int)
    | SquarePerimeter(a: int)
    | TrianglePerimeter(a: int, b: int, c: int)
    | RectArea(a: int, b: int)
    | SquareArea(a: int)
    | TriangleArea(b: int, h: int)
    | ThirdAngle(a: int, b: int)
    | Proportion(a: int, b: int, c: int)
    | Power(n: int, e: nat)
    | Shift(x1: int, y1: int, dx: int)
    | Volume(a: int, b: int, c: int)
    | Spelling(entry: RusWord)

  /** The problems with a numeric answer (all but word problems and spelling). */
  predicate Numeric(p: Problem)
  {
    !p.Word? && !p.Spelling?
  }

  /** What the answer x of a problem must satisfy, read from the prompt the player sees. */
  ghost predicate Solves(p: Problem, x: real)
    requires Numeric(p) && WellPosed(p)
  {
    match p
    case Sum(a, b) => x == (a + b) as real
    case Subtraction(a, b) => x + b as real == a as real
    case Product(a, b) => x == (a * b) as real
    case Division(d, q) => x * d as real == (d * q) as real
    case Equation(b, c) => x + b as real == c as real
    case FractionOf(num, den, k) => x * den as real == (num * (den * k)) as real
    case Negative(a, b) => x + b as real == a as real
    case SquareOf(n) => x == (n * n) as real
    case PercentOf(pct, k) => 100.0 * x == (pct * (k * 10)) as real
    case RectPerimeter(a, b) => x == (a + b + a + b) as real
    case SquarePerimeter(a) => x == (a + a + a + a) as real
    case TrianglePerimeter(a, b, c) => x == (a + b + c) as real
    case RectArea(a, b) => x == (a * b) as real
    case SquareArea(a) => x == (a * a) as real
    case TriangleArea(b, h) => 2.0 * x == (b * h) as real
    case ThirdAngle(a, b) => (a + b) as real + x == 180.0
    case Proportion(a, b, c) =>
      // the whole number nearest to the solution of a/x = b/(a*c), halves rounding up
      x == x.Floor as real && x - 0.5 <= ProportionExact(a, b, c) < x + 0.5
    case Power(n, e) => x == Pow(n, e) as real
    case Shift(x1, _, dx) => x == (x1 + dx) as real
    case Volume(a, b, c) => x == (a * b * c) as real
  }

  /** The problem is well posed: the source's arithmetic on it is defined, it prints a whole
      number or a half, and the prompt has exactly one answer. The generator only produces such
      problems. */
  predicate WellPosed(p: Problem)
  {
    match p
    case FractionOf(num, den, k) => den != 0 && IsHalfInteger(FractionValue(num, den, k))
    case PercentOf(pct, k) => IsHalfInteger(PercentValue(pct, k))
    case Division(d, _) => d != 0
    case Proportion(_, b, _) => b != 0
    case _ => true
  }

  /** The exact rational operations of the fractional answers, kept apart from the
      case analysis over problems. */
  function Halve(m: int): real
  {
    m as real / 2.0
  }

  /** `(base * pct) / 100` with base = 10 k. */
  function PercentValue(pct: int, k: int): real
  {
    (k * 10 * pct) as real / 100.0
  }

  /** `(base * num) / den` with base = den k. */
  function FractionValue(num: int, den: int, k: int): real
    requires den != 0
  {
    (den * k * num) as real / den as real
  }

  /** The exact solution a * a * c / b of the proportion a / x = b / (a c). */
  function ProportionExact(a: int, b: int, c: int): real
    requires b != 0
  {
    (a * a * c) as real / b as real
  }

  lemma HalfOf(m: int)
    ensures IsHalfInteger(Halve(m))
  {
    assert 2.0 * (m as real / 2.0) == m as real;
  }

  lemma CancelFactor(d: int, m: int)
    requires d != 0
    ensures (d * m) as real / d as real == m as real
  {
    Progression.ProductCast(d, m);
  }

  /** Over exact rationals `a * c / b * b` is `a * c`, and the rounded answer is that of
      a * a * c / b. */
  lemma ProportionCancels(a: int, b: int, c: int)
    requires b != 0
    ensures (a * c) as real / b as real * b as real == (a * c) as real
    ensures a as real * ((a * c) as real / b as real * b as real) / b as real == (a * a * c) as real / b as real
  {
    Progression.ProductCast(a, a * c);
    assert a * a * c == a * (a * c);
  }

  /** The prompt the source builds for a problem. */
  function Text(p: Problem): string
    requires WellPosed(p)
  {
    match p
    case Sum(a, b) => IntString(a) + " + " + IntString(b) + " = ?"
    case Subtraction(a, b) => IntString(a) + " − " + IntString(b) + " = ?"
    case Product(a, b) => IntString(a) + " × " + IntString(b) + " = ?"
    case Division(d, q) => IntString(d * q) + " ÷ " + IntString(d) + " = ?"
    case Equation(b, c) => "x + " + IntString(b) + " = " + IntString(c) + "\nНайди x"
    case FractionOf(num, den, k) => IntString(num) + "/" + IntString(den) + " от " + IntString(den * k) + " = ?"
    case Negative(a, b) => IntString(a) + " − " + IntString(b) + " = ?"
    case SquareOf(n) => IntString(n) + "² = ?"
    case PercentOf(pct, k) => IntString(pct) + "% от " + IntString(k * 10) + " = ?"
    case Word(w) => w.text
    case RectPerimeter(a, b) => "Периметр прямоуг. " + IntString(a) + "×" + IntString(b) + " = ?"
    case SquarePerimeter(a) => "Периметр квадрата со стороной " + IntString(a) + " = ?"
    case TrianglePerimeter(a, b, c) =>
      "Периметр треуг. со сторонами " + IntString(a) + ", " + IntString(b) + ", " + IntString(c) + " = ?"
    case RectArea(a, b) => "Площадь прямоуг. " + IntString(a) + "×" + IntString(b) + " = ?"
    case SquareArea(a) => "Площадь квадрата со стороной " + IntString(a) + " = ?"
    case TriangleArea(b, h) => "Площадь треуг. с основ. " + IntString(b) + " и высотой " + IntString(h) + " = ?"
    case ThirdAngle(a, b) => "Два угла треугольника: " + IntString(a) + "° и " + IntString(b) + "°. Третий?"
    case Proportion(a, b, c) =>
      ProportionCancels(a, b, c);
      NumberStringOfInt(a * c);
      IntString(a) + "/x = " + IntString(b) + "/" + NumberString((a * c) as real / b as real * b as real)
        + "\nНайди x (округли до целого)"
    case Power(n, e) => IntString(n) + (if e == 2 then "²" else "³") + " = ?"
    case Shift(x1, y1, dx) =>
      "Точка A(" + IntString(x1) + ", " + IntString(y1) + "). Сдвинь на " + IntString(dx) + " по X. Новый X?"
    case Volume(a, b, c) => "Объём параллелепипеда " + IntString(a) + "×" + IntString(b) + "×" + IntString(c) + " = ?"
    case Spelling(w) => w.q
  }

  /** `Math.round(a * (a * c / b * b) / b)`, evaluated left to right as the source writes it. */
  function ProportionAnswerValue(a: int, b: int, c: int): int
    requires b != 0
  {
    Progression.Round(a as real * ((a * c) as real / b as real * b as real) / b as real)
  }

  /** The answer the source computes and prints for a problem. */
  function Answer(p: Problem): string
    requires WellPosed(p)
  {
    match p
    case Sum(a, b) => IntString(a + b)
    case Subtraction(a, b) => IntString(a - b)
    case Product(a, b) => IntString(a * b)
    case Division(_, q) => IntString(q)
    case Equation(b, c) => IntString(c - b)
    case FractionOf(num, den, k) => NumberString(FractionValue(num, den, k))
    case Negative(a, b) => IntString(a - b)
    case SquareOf(n) => IntString(n * n)
    case PercentOf(pct, k) => NumberString(PercentValue(pct, k))
    case Word(w) => w.ans
    case RectPerimeter(a, b) => IntString(2 * (a + b))
    case SquarePerimeter(a) => IntString(4 * a)
    case TrianglePerimeter(a, b, c) => IntString(a + b + c)
    case RectArea(a, b) => IntString(a * b)
    case SquareArea(a) => IntString(a * a)
    case TriangleArea(b, h) =>
      HalfOf(b * h);
      NumberString(Halve(b * h))
    case ThirdAngle(a, b) => IntString(180 - a - b)
    case Proportion(a, b, c) => IntString(ProportionAnswerValue(a, b, c))
    case Power(n, e) => IntString(Pow(n, e))
    case Shift(x1, _, dx) => IntString(x1 + dx)
    case Volume(a, b, c) => IntString(a * b * c)
    case Spelling(w) => w.a
  }

  /** The hint shown with the question; pool entries without one have none. */
  function Hint(p: Problem): Option<string>
  {
    match p
    case Sum(_, _) => Some("Сложение")
    case Subtraction(_, _) => Some("Вычитание")
    case Product(_, _) => Some("Умножение")
    case Division(_, _) => Some("Деление")
    case Equation(_, _) => Some("Уравнение")
    case FractionOf(_, _, _) => Some("Дроби")
    case Negative(_, _) => Some("Отрицательные числа")
    case SquareOf(_) => Some("Квадрат числа")
    case PercentOf(_, _) => Some("Проценты")
    case Word(_) => Some("Задача")
    case RectPerimeter(_, _) => Some("P = 2(a+b)")
    case SquarePerimeter(_) => Some("P = 4a")
    case TrianglePerimeter(_, _, _) => Some("P = a+b+c")
    case RectArea(_, _) => Some("S = a×b")
    case SquareArea(_) => Some("S = a²")
    case TriangleArea(_, _) => Some("S = b×h/2")
    case ThirdAngle(_, _) => Some("Сумма углов = 180°")
    case Proportion(_, _, _) => Some("Пропорция: a/b = c/d")
    case Power(_, _) => Some("Степень числа")
    case Shift(_, _, _) => Some("Координатная ось")
    case Volume(_, _, _) => Some("V = a×b×c")
    case Spelling(w) => w.hint
  }

  /** The question the source builds for a problem. */
  function Render(p: Problem): Question
    requires WellPosed(p)
  {
    Question(Text(p), Answer(p), Hint(p))
  }

  // ---------------------------------------------------------------- answers

  /** The number the source prints as the answer. */
  ghost function Solution(p: Problem): real
    requires Numeric(p) && WellPosed(p)
  {
    match p
    case Sum(a, b) => (a + b) as real
    case Subtraction(a, b) => (a - b) as real
    case Product(a, b) => (a * b) as real
    case Division(_, q) => q as real
    case Equation(b, c) => (c - b) as real
    case FractionOf(num, _, k) => (num * k) as real
    case Negative(a, b) => (a - b) as real
    case SquareOf(n) => (n * n) as real
    case PercentOf(pct, k) => PercentValue(pct, k)
    case RectPerimeter(a, b) => (2 * (a + b)) as real
    case SquarePerimeter(a) => (4 * a) as real
    case TrianglePerimeter(a, b, c) => (a + b + c) as real
    case RectArea(a, b) => (a * b) as real
    case SquareArea(a) => (a * a) as real
    case TriangleArea(b, h) => Halve(b * h)
    case ThirdAngle(a, b) => (180 - a - b) as real
    case Proportion(a, b, c) => Progression.Round(ProportionExact(a, b, c)) as real
    case Power(n, e) => Pow(n, e) as real
    case Shift(x1, _, dx) => (x1 + dx) as real
    case Volume(a, b, c) => (a * b * c) as real
  }

  lemma SolutionSolves(p: Problem)
    requires Numeric(p) && WellPosed(p)
    ensures Solves(p, Solution(p))
  {
    match p
    case Division(d, q) =>
      Progression.ProductCast(q, d);
    case FractionOf(num, den, k) =>
      Progression.ProductCast(num * k, den);
      assert num * k * den == num * (den * k);
    case _ =>
  }

  /** The prompt pins its answer down: any two answers are equal. */
  lemma SolutionUnique(p: Problem, x: real)
    requires Numeric(p) && WellPosed(p) && Solves(p, x)
    ensures x == Solution(p)
  {
    match p
    case Division(d, q) => DivisionUnique(d, q, x);
    case FractionOf(num, den, k) => FractionUnique(num, den, k, x);
    case Proportion(a, b, c) => RoundingUnique(ProportionExact(a, b, c), x);
    case _ =>
  }

  lemma DivisionUnique(d: int, q: int, x: real)
    requires d != 0 && x * d as real == (d * q) as real
    ensures x == q as real
  {
    Progression.ProductCast(d, q);
    assert (x - q as real) * d as real == 0.0;
  }

  lemma FractionUnique(num: int, den: int, k: int, x: real)
    requires den != 0 && x * den as real == (num * (den * k)) as real
    ensures x == (num * k) as real
  {
    Progression.ProductCast(num * k, den);
    assert num * (den * k) == num * k * den;
    assert (x - (num * k) as real) * den as real == 0.0;
  }

  /** Only one whole number lies within a half (below inclusive) of a given value. */
  lemma RoundingUnique(y: real, x: real)
    requires x == x.Floor as real && x - 0.5 <= y < x + 0.5
    ensures x == Progression.Round(y) as real
  {
    var n := x.Floor;
    var f := (y + 0.5).Floor;
    assert n as real == x;
    assert f as real <= y + 0.5 < f as real + 1.0;
    assert n as real <= y + 0.5 < n as real + 1.0;
    assert f <= n && n <= f;
  }

  /** The printed answer is the string of the solution. */
  lemma AnswerIsSolution(p: Problem)
    requires Numeric(p) && WellPosed(p)
    ensures IsHalfInteger(Solution(p)) && Answer(p) == NumberString(Solution(p))
  {
    match p
    case FractionOf(num, den, k) =>
      FractionAnswer(num, den, k);
      NumberStringOfInt(num * k);
    case PercentOf(_, _) =>
    case TriangleArea(b, h) => HalfOf(b * h);
    case Proportion(a, b, c) =>
      ProportionAnswer(a, b, c);
      NumberStringOfInt(Progression.Round(ProportionExact(a, b, c)));
    case Sum(a, b) => IntAnswer(p, a + b);
    case Subtraction(a, b) => IntAnswer(p, a - b);
    case Product(a, b) => IntAnswer(p, a * b);
    case Division(_, q) => IntAnswer(p, q);
    case Equation(b, c) => IntAnswer(p, c - b);
    case Negative(a, b) => IntAnswer(p, a - b);
    case SquareOf(n) => IntAnswer(p, n * n);
    case RectPerimeter(a, b) => IntAnswer(p, 2 * (a + b));
    case SquarePerimeter(a) => IntAnswer(p, 4 * a);
    case TrianglePerimeter(a, b, c) => IntAnswer(p, a + b + c);
    case RectArea(a, b) => IntAnswer(p, a * b);
    case SquareArea(a) => IntAnswer(p, a * a);
    case ThirdAngle(a, b) => IntAnswer(p, 180 - a - b);
    case Power(n, e) => IntAnswer(p, Pow(n, e));
    case Shift(x1, _, dx) => IntAnswer(p, x1 + dx);
    case Volume(a, b, c) => IntAnswer(p, a * b * c);
  }

  /** A question whose answer prints an integer n and whose solution is n. */
  lemma IntAnswer(p: Problem, n: int)
    requires Numeric(p) && WellPosed(p)
    requires Solution(p) == n as real && Answer(p) == IntString(n)
    ensures IsHalfInteger(Solution(p)) && Answer(p) == NumberString(Solution(p))
  {
    NumberStringOfInt(n);
  }

  lemma FractionAnswer(num: int, den: int, k: int)
    requires den != 0
    ensures WellPosed(FractionOf(num, den, k)) && Answer(FractionOf(num, den, k)) == IntString(num * k)
  {
    var v := FractionValue(num, den, k);
    assert den * k * num == den * (num * k);
    CancelFactor(den, num * k);
    assert v == (num * k) as real;
    NumberStringOfInt(num * k);
    assert NumberString(v) == IntString(num * k);
  }

  lemma ProportionAnswer(a: int, b: int, c: int)
    requires b != 0
    ensures Answer(Proportion(a, b, c)) == IntString(Progression.Round(ProportionExact(a, b, c)))
  {
    ProportionCancels(a, b, c);
  }

  /** The answer check is exact: a number's string equals the expected answer exactly when it
      solves the problem shown. */
  lemma AnswerAcceptsExactly(p: Problem, x: real)
    requires Numeric(p) && WellPosed(p)
    ensures IsHalfInteger(x) && NumberString(x) == Answer(p) <==> Solves(p, x)
  {
    AnswerIsSolution(p);
    SolutionSolves(p);
    if Solves(p, x) {
      SolutionUnique(p, x);
    }
    if IsHalfInteger(x) && NumberString(x) == Answer(p) {
      NumberStringInjective(x, Solution(p));
    }
  }

  // ---------------------------------------------------------------- math

  datatype MathOp = Add | Sub | Mul | Div | Eq | Frac | Neg | Sq | Pct | WordOp

  /** The level from which each kind of math question is asked. */
  function MathGate(op: MathOp): int
  {
    match op
    case Add => 1
    case Sub => 2
    case Mul => 3
    case Div => 4
    case Eq => 4
    case Frac => 5
    case Neg => 5
    case Sq => 6
    case Pct => 7
    case WordOp => 7
  }

  /** The kinds on offer at a level: addition always, every other kind from its gate on. */
  function MathOps(level: int): (ops: seq<MathOp>)
    ensures |ops| > 0 && ops[0] == Add
    ensures forall op: MathOp :: op in ops <==> op == Add || level >= MathGate(op)
  {
    [Add]
    + (if level >= 2 then [Sub] else [])
    + (if level >= 3 then [Mul] else [])
    + (if level >= 4 then [Div, Eq] else [])
    + (if level >= 5 then [Frac, Neg] else [])
    + (if level >= 6 then [Sq] else [])
    + (if level >= 7 then [Pct, WordOp] else [])
  }

  /** The operand bound of addition and subtraction, `min(level * 10, 100)`. */
  function Bound(level: int): int
  {
    Progression.Min(level * 10, 100)
  }

  lemma PercentIsHalf(pct: int, k: int)
    requires pct == 10 || pct == 20 || pct == 25 || pct == 50
    ensures IsHalfInteger(PercentValue(pct, k))
  {
    var j := pct / 5;
    assert k * 10 * pct == 50 * (k * j);
    assert (k * 10 * pct) as real / 100.0 == (k * j) as real / 2.0;
    HalfOf(k * j);
  }

  lemma FractionIsWhole(num: int, den: int, k: int)
    requires den != 0
    ensures IsHalfInteger(FractionValue(num, den, k))
  {
    assert den * k * num == den * (num * k);
    CancelFactor(den, num * k);
    NumberStringOfInt(num * k);
  }

  /** The math question's problem: the kind is drawn among those on offer, then its operands,
      each within the bounds the source draws it from. */
  function ChooseMath(level: int, draws: seq<real>): (p: Problem)
    requires ValidDraws(draws)
    ensures WellPosed(p)
    ensures p.Sum? || p.Subtraction? || p.Product? || p.Division? || p.Equation? || p.FractionOf?
         || p.Negative? || p.SquareOf? || p.PercentOf? || p.Word?
    ensures p.Sum? && level >= 1 ==> 1 <= p.a <= Bound(level) && 1 <= p.b <= Bound(level)
    ensures p.Subtraction? ==> level >= 2 && 1 <= p.b <= p.a <= Bound(level)
    ensures p.Product? ==> level >= 3 && 1 <= p.a <= Progression.Min(level + 5, 12) && 1 <= p.b <= Progression.Min(level + 5, 12)
    ensures p.Division? ==> level >= 4 && 2 <= p.divisor <= 10 && 1 <= p.quotient <= 10
    ensures p.Equation? ==> level >= 4 && 1 <= p.b <= 20 && p.b + 1 <= p.c <= 40
    ensures p.FractionOf? ==> level >= 5 && p.den in [2, 4, 5, 10] && 1 <= p.num < p.den && 1 <= p.k <= 10
    ensures p.Negative? ==> level >= 5 && 1 <= p.a <= 20 && p.a + 1 <= p.b <= 30
    ensures p.SquareOf? ==> level >= 6 && 2 <= p.n <= Progression.Min(level, 12)
    ensures p.PercentOf? ==> level >= 7 && p.pct in [10, 20, 25, 50] && 1 <= p.k <= 10
    ensures p.Word? ==> level >= 7 && p.w in WordProblems
  {
    var m := Bound(level);
    var op := Pick(MathOps(level), draws[0]);
    match op
    case Add => Sum(Rnd(m, 1, draws[1]), Rnd(m, 1, draws[2]))
    case Sub =>
      var b := Rnd(m - 1, 1, draws[1]);
      Subtraction(Rnd(m, b, draws[2]), b)
    case Mul => Product(Rnd(Progression.Min(level + 5, 12), 1, draws[1]), Rnd(Progression.Min(level + 5, 12), 1, draws[2]))
    case Div => Division(Rnd(10, 2, draws[1]), Rnd(10, 1, draws[2]))
    case Eq =>
      var b := Rnd(20, 1, draws[1]);
      Equation(b, Rnd(40, b + 1, draws[2]))
    case Frac =>
      var den := Pick([2, 4, 5, 10], draws[1]);
      var num := Rnd(den - 1, 1, draws[2]);
      var k := Rnd(10, 1, draws[3]);
      FractionIsWhole(num, den, k);
      FractionOf(num, den, k)
    case Neg =>
      var a := Rnd(20, 1, draws[1]);
      Negative(a, Rnd(30, a + 1, draws[2]))
    case Sq => SquareOf(Rnd(Progression.Min(level, 12), 2, draws[1]))
    case Pct =>
      var pct := Pick([10, 20, 25, 50], draws[1]);
      var k := Rnd(10, 1, draws[2]);
      PercentIsHalf(pct, k);
      PercentOf(pct, k)
    case WordOp => Word(Pick(WordProblems, draws[1]))
  }

  /** Subtraction never goes below zero; the negative-number kind always does. */
  lemma MathAnswerSigns(level: int, draws: seq<real>)
    requires ValidDraws(draws)
    ensures var p := ChooseMath(level, draws);
      && (p.Subtraction? ==> Solution(p) >= 0.0)
      && (p.Negative? ==> Solution(p) < 0.0)
      && (p.FractionOf? ==> Solution(p) == Solution(p).Floor as real)
  {
  }

  // ---------------------------------------------------------------- geometry

  datatype GeoOp = Perimeter | Area | Angle | ProportionOp | PowerOp | Coord | VolumeOp

  function GeoGate(op: GeoOp): int
  {
    match op
    case Perimeter => 1
    case Area => 1
    case Angle => 1
    case ProportionOp => 4
    case PowerOp => 5
    case Coord => 5
    case VolumeOp => 7
  }

  /** The geometry kinds on offer: perimeter, area and angle always, the others from their gates. */
  function GeoOps(level: int): (ops: seq<GeoOp>)
    ensures |ops| >= 3
    ensures forall op: GeoOp :: op in ops <==> GeoGate(op) == 1 || level >= GeoGate(op)
  {
    [Perimeter, Area, Angle]
    + (if level >= 4 then [ProportionOp] else [])
    + (if level >= 5 then [PowerOp, Coord] else [])
    + (if level >= 7 then [VolumeOp] else [])
  }

  /** The geometry question's problem; a perimeter or area question first draws its shape. */
  function ChooseGeometry(level: int, draws: seq<real>): (p: Problem)
    requires ValidDraws(draws)
    ensures WellPosed(p) && Numeric(p)
    ensures p.RectPerimeter? ==> 2 <= p.a <= 12 && 2 <= p.b <= 12
    ensures p.SquarePerimeter? ==> 2 <= p.a <= 10
    ensures p.TrianglePerimeter? ==> 2 <= p.a <= 8 && 2 <= p.b <= 8 && 2 <= p.c <= 8
    ensures p.RectArea? ==> 2 <= p.a <= 10 && 2 <= p.b <= 10
    ensures p.SquareArea? ==> 2 <= p.a <= 10
    ensures p.TriangleArea? ==> 2 <= p.b <= 10 && 2 <= p.h <= 10
    ensures p.ThirdAngle? ==> 20 <= p.a <= 80 && 20 <= p.b <= 170 - p.a
    ensures p.Proportion? ==> level >= 4 && 2 <= p.a <= 8 && 2 <= p.b <= 8 && 2 <= p.c <= 8
    ensures p.Power? ==> level >= 5 && 2 <= p.n <= 5 && (p.e == 2 || p.e == 3)
    ensures p.Shift? ==> level >= 5 && -5 <= p.x1 <= 5 && -5 <= p.y1 <= 5 && 1 <= p.dx <= 5
    ensures p.Volume? ==> level >= 7 && 2 <= p.a <= 8 && 2 <= p.b <= 8 && 2 <= p.c <= 8
    ensures p.RectPerimeter? || p.SquarePerimeter? || p.TrianglePerimeter? || p.RectArea? || p.SquareArea?
         || p.TriangleArea? || p.ThirdAngle? || p.Proportion? || p.Power? || p.Shift? || p.Volume?
  {
    var op := Pick(GeoOps(level), draws[0]);
    match op
    case Perimeter =>
      var shape := Pick([0, 1, 2], draws[1]);
      if shape == 0 then RectPerimeter(Rnd(12, 2, draws[2]), Rnd(12, 2, draws[3]))
      else if shape == 1 then SquarePerimeter(Rnd(10, 2, draws[2]))
      else TrianglePerimeter(Rnd(8, 2, draws[2]), Rnd(8, 2, draws[3]), Rnd(8, 2, draws[4]))
    case Area =>
      var shape := Pick([0, 1, 2], draws[1]);
      if shape == 0 then RectArea(Rnd(10, 2, draws[2]), Rnd(10, 2, draws[3]))
      else if shape == 1 then SquareArea(Rnd(10, 2, draws[2]))
      else TriangleArea(Rnd(10, 2, draws[2]), Rnd(10, 2, draws[3]))
    case Angle =>
      var a := Rnd(80, 20, draws[1]);
      ThirdAngle(a, Rnd(170 - a, 20, draws[2]))
    case ProportionOp => Proportion(Rnd(8, 2, draws[1]), Rnd(8, 2, draws[2]), Rnd(8, 2, draws[3]))
    case PowerOp =>
      var n := Rnd(5, 2, draws[1]);
      Power(n, Pick<nat>([2, 3], draws[2]))
    case Coord => Shift(Rnd(5, -5, draws[1]), Rnd(5, -5, draws[2]), Rnd(5, 1, draws[3]))
    case VolumeOp => Volume(Rnd(8, 2, draws[1]), Rnd(8, 2, draws[2]), Rnd(8, 2, draws[3]))
  }

  /** The third angle of a generated triangle is at least 10 degrees. */
  lemma ThirdAngleIsPositive(level: int, draws: seq<real>)
    requires ValidDraws(draws)
    ensures var p := ChooseGeometry(level, draws);
      p.ThirdAngle? ==> Solution(p) >= 10.0
  {
  }

  // ---------------------------------------------------------------- russian

  /** The pool entries asked at a level (`filter(w => w.lvl <= maxLvl)`), in pool order. */
  function Eligible(pool: seq<RusWord>, maxLvl: int): (r: seq<RusWord>)
    ensures |r| <= |pool|
    ensures forall w :: w in r <==> w in pool && w.lvl <= maxLvl
  {
    if pool == [] then []
    else if pool[0].lvl <= maxLvl then [pool[0]] + Eligible(pool[1..], maxLvl)
    else Eligible(pool[1..], maxLvl)
  }

  /** A draw from a pool whose first entry is asked from level 1, so the choice is never empty. */
  function ChooseFrom(pool: seq<RusWord>, level: int, u: real): (w: RusWord)
    requires |pool| > 0 && pool[0].lvl <= 1 && 0.0 <= u < 1.0
    ensures w in pool && w.lvl <= Progression.Max(level, 1)
  {
    var eligible := Eligible(pool, Progression.Max(level, 1));
    assert pool[0] in eligible;
    Pick(eligible, u)
  }

  /** The Russian question's problem: a pool entry drawn among those up to the level (level 1
      at least). */
  function ChooseRussian(level: int, draws: seq<real>): (p: Problem)
    requires ValidDraws(draws)
    ensures p.Spelling? && p.entry in RussianPool && p.entry.lvl <= Progression.Max(level, 1)
  {
    Spelling(ChooseFrom(RussianPool, level, draws[0]))
  }

  // ---------------------------------------------------------------- generateQuestion

  function Choose(subject: Zone, level: int, draws: seq<real>): (p: Problem)
    requires ValidDraws(draws)
    ensures WellPosed(p)
  {
    match subject
    case Geometry => ChooseGeometry(level, draws)
    case Math => ChooseMath(level, draws)
    case Russian => ChooseRussian(level, draws)
  }

  /** `generateQuestion(subject, level)` with the random numbers supplied. */
  function Generate(subject: Zone, level: int, draws: seq<real>): (q: Question)
    requires ValidDraws(draws)
  {
    Render(Choose(subject, level, draws))
  }

  /** A generated geometry question, and a generated math question other than a word problem,
      accepts exactly the numbers that solve it. */
  lemma GeneratedAnswerIsExact(subject: Zone, level: int, draws: seq<real>, x: real)
    requires ValidDraws(draws) && subject != Russian
    requires !Choose(subject, level, draws).Word?
    ensures var p := Choose(subject, level, draws);
      IsHalfInteger(x) && NumberString(x) == Generate(subject, level, draws).correctAnswer <==> Solves(p, x)
  {
    AnswerAcceptsExactly(Choose(subject, level, draws), x);
  }

  /** The generator's one departure from whole numbers: a quarter of an odd multiple of ten
      prints with ".5" (for a 10-coin base, 25% is "2.5"). */
  lemma PercentCanBeHalf()
    ensures Answer(PercentOf(25, 1)) == "2.5"
  {
    PercentIsHalf(25, 1);
    assert (1 * 10 * 25) as real / 100.0 == 2.5;
    assert (2.0 * 2.5).Floor == 5;
  }

  /** Exactly which percent problems have a fractional answer: for the generator's percentages
      (10, 20, 25, 50), the value is a whole number unless the percentage is 25 and the base is
      an odd multiple of ten. */
  lemma PercentWholeExactly(pct: int, k: int)
    requires pct == 10 || pct == 20 || pct == 25 || pct == 50
    ensures PercentValue(pct, k) == PercentValue(pct, k).Floor as real <==> !(pct == 25 && k % 2 == 1)
  {
    var v := PercentValue(pct, k);
    if pct == 25 {
      var m := k / 2;
      assert k * 10 * pct == 250 * k;
      if k % 2 == 0 {
        assert v == (5 * m) as real;
      } else {
        assert k == 2 * m + 1;
        assert v == (5 * m + 2) as real + 0.5;
        assert v.Floor == 5 * m + 2;
      }
    } else {
      var j := pct / 10;
      assert k * 10 * pct == 100 * (k * j);
      assert v == (k * j) as real;
    }
  }


  /** The fifteen word problems of the top math level, as text and answer. */
  const WordProblems: seq<WordProblem> := [
    WordProblem("В классе 30 учеников. Ушло 7. Сколько осталось?", "23"),
    WordProblem("У Маши 5 яблок, у Пети в 3 раза больше. Сколько у Пети?", "15"),
    WordProblem("Маг победил 4 гоблина и 6 слизней. Сколько всего?", "10"),
    WordProblem("В кошельке 50 монет. Потратили 18. Сколько осталось?", "32"),
    WordProblem("Поезд едет 80 км/ч. За 2 часа проедет сколько км?", "160"),
    WordProblem("Прямоугольник 6×4. Найди периметр.", "20"),
    WordProblem("Прямоугольник 5×3. Найди площадь.", "15"),
    WordProblem("Три угла треугольника: 60°, 70°, ?°", "50"),
    WordProblem("Купили 3 тетради по 12 руб. Сколько заплатили?", "36"),
    WordProblem("В день читаю 15 стр. За неделю сколько страниц?", "105"),
    WordProblem("Скорость 60 км/ч, время 3 ч. Расстояние?", "180"),
    WordProblem("Периметр квадрата 28. Сторона?", "7"),
    WordProblem("Куплено 4 кг по 35 руб/кг. Итого?", "140"),
    WordProblem("15% от 200 = ?", "30"),
    WordProblem("2³ = ?", "8")
  ]

  /** Level 1: basic dictionary words. */
  const RusLevel1: seq<RusWord> := [
    RusWord("Молоко или малоко?", "молоко", 1, None),
    RusWord("Собака или сабака?", "собака", 1, None),
    RusWord("Корова или карова?", "корова", 1, None),
    RusWord("Яблоко или яблако?", "яблоко", 1, None),
    RusWord("Солнце или сонце?", "солнце", 1, None),
    RusWord("Ворона или варона?", "ворона", 1, None),
    RusWord("Петух или питух?", "петух", 1, None),
    RusWord("Ребята или рибята?", "ребята", 1, None),
    RusWord("Медведь или медветь?", "медведь", 1, None),
    RusWord("Морковь или морков?", "морковь", 1, None),
    RusWord("Огурец или агурец?", "огурец", 1, None),
    RusWord("Девочка или девачка?", "девочка", 1, None),
    RusWord("Мальчик или малчик?", "мальчик", 1, None),
    RusWord("Учитель или учетель?", "учитель", 1, None),
    RusWord("Тетрадь или тетрать?", "тетрадь", 1, None),
    RusWord("Карандаш или карандош?", "карандаш", 1, None)
  ]

  /** Level 2: ЖИ-ШИ, ЧА-ЩА, ЧУ-ЩУ and doubled consonants. */
  const RusLevel2: seq<RusWord> := [
    RusWord("Живот или жывот?", "живот", 2, Some("ЖИ-ШИ пиши с И")),
    RusWord("Шина или шына?", "шина", 2, Some("ЖИ-ШИ пиши с И")),
    RusWord("Жираф или жыраф?", "жираф", 2, Some("ЖИ-ШИ пиши с И")),
    RusWord("Чашка или чяшка?", "чашка", 2, Some("ЧА-ЩА пиши с А")),
    RusWord("Щавель или щявель?", "щавель", 2, Some("ЧА-ЩА пиши с А")),
    RusWord("Чудо или чюдо?", "чудо", 2, Some("ЧУ-ЩУ пиши с У")),
    RusWord("Щука или щюка?", "щука", 2, Some("ЧУ-ЩУ пиши с У")),
    RusWord("Класс или клас?", "класс", 2, Some("Удвоенная согласная")),
    RusWord("Суббота или субота?", "суббота", 2, Some("Удвоенная согласная")),
    RusWord("Аллея или алея?", "аллея", 2, Some("Удвоенная согласная")),
    RusWord("Коллекция или колекция?", "коллекция", 2, None),
    RusWord("Программа или програма?", "программа", 2, None),
    RusWord("Дружить или дружыть?", "дружить", 2, Some("После Ж — И")),
    RusWord("Хорошо или харашо?", "хорошо", 2, None),
    RusWord("Ребёнок или рябёнок?", "ребёнок", 2, None),
    RusWord("Железо или жылезо?", "железо", 2, None)
  ]

  /** Level 3: soft and hard signs, prefixes. */
  const RusLevel3: seq<RusWord> := [
    RusWord("Мышь или мыш?", "мышь", 3, Some("Ь у сущ. жен. рода после шипящей")),
    RusWord("Ночь или ноч?", "ночь", 3, Some("Ь у сущ. жен. рода")),
    RusWord("Врач или врачь?", "врач", 3, Some("Без Ь у сущ. муж. рода")),
    RusWord("Вещь или вещ?", "вещь", 3, Some("Ь у сущ. жен. рода")),
    RusWord("Подъезд или подезд?", "подъезд", 3, Some("Ъ после приставки перед Е")),
    RusWord("Объявление или обявление?", "объявление", 3, Some("Ъ после приставки")),
    RusWord("Съезд или сезд?", "съезд", 3, Some("Ъ после С перед Е")),
    RusWord("Пьеса или песа?", "пьеса", 3, Some("Разделительный Ь")),
    RusWord("Сделать или зделать?", "сделать", 3, Some("Приставка С-")),
    RusWord("Сбежать или збежать?", "сбежать", 3, Some("Приставка С-")),
    RusWord("Расписание или разписание?", "расписание", 3, Some("РАС- перед глухими")),
    RusWord("Разрисовать или расрисовать?", "разрисовать", 3, Some("РАЗ- перед звонкими")),
    RusWord("Безграмотный или бесграмотный?", "безграмотный", 3, Some("БЕЗ- перед звонкими")),
    RusWord("Бесполезный или безполезный?", "бесполезный", 3, Some("БЕС- перед глухими"))
  ]

  /** Level 4: hard words. */
  const RusLevel4: seq<RusWord> := [
    RusWord("Беспокойство или безпокойство?", "беспокойство", 4, None),
    RusWord("Расстояние или растояние?", "расстояние", 4, None),
    RusWord("Впечатление или впичатление?", "впечатление", 4, None),
    RusWord("Путешествие или путишествие?", "путешествие", 4, None),
    RusWord("Участвовать или учавствовать?", "участвовать", 4, None),
    RusWord("Чувствовать или чюствовать?", "чувствовать", 4, None),
    RusWord("Здравствуйте или здраствуйте?", "здравствуйте", 4, None),
    RusWord("Пожалуйста или пожалуста?", "пожалуйста", 4, None),
    RusWord("Президент или прездент?", "президент", 4, None),
    RusWord("Экскурсия или экскурция?", "экскурсия", 4, None),
    RusWord("Профессия или професия?", "профессия", 4, None),
    RusWord("Территория или терирория?", "территория", 4, None),
    RusWord("Замечательный или замечятельный?", "замечательный", 4, None),
    RusWord("Разговор или раговор?", "разговор", 4, None)
  ]

  /** Level 5: synonyms and antonyms. */
  const RusLevel5: seq<RusWord> := [
    RusWord("Синоним слова «радость»:", "счастье", 5, Some("Близкое по смыслу")),
    RusWord("Антоним слова «грустный»:", "весёлый", 5, None),
    RusWord("Синоним слова «большой»:", "огромный", 5, None),
    RusWord("Антоним слова «быстро»:", "медленно", 5, None),
    RusWord("Синоним слова «храбрый»:", "смелый", 5, None),
    RusWord("Антоним слова «начало»:", "конец", 5, None),
    RusWord("Синоним слова «смотреть»:", "глядеть", 5, None),
    RusWord("Антоним слова «добрый»:", "злой", 5, None),
    RusWord("Синоним слова «говорить»:", "произносить", 5, None),
    RusWord("Антоним слова «трудный»:", "лёгкий", 5, None)
  ]

  /** Level 6: parts of speech and word structure. */
  const RusLevel6: seq<RusWord> := [
    RusWord("Часть речи слова «красивый»:", "прилагательное", 6, None),
    RusWord("Часть речи слова «бежать»:", "глагол", 6, None),
    RusWord("Часть речи слова «он»:", "местоимение", 6, None),
    RusWord("Часть речи слова «быстро»:", "наречие", 6, None),
    RusWord("Часть речи слова «и»:", "союз", 6, None),
    RusWord("Часть речи слова «ах»:", "междометие", 6, None),
    RusWord("Сколько слогов в «яблоко»?", "3", 6, None),
    RusWord("Корень слова «переход»:", "ход", 6, Some("пере-ход")),
    RusWord("Приставка в «подснежник»:", "под", 6, Some("под-снежник")),
    RusWord("Суффикс в слове «учитель»:", "тель", 6, Some("учи-тель"))
  ]

  /** The Russian pool: question, answer, level from which it is asked, optional hint. */
  const RussianPool: seq<RusWord> := RusLevel1 + RusLevel2 + RusLevel3 + RusLevel4 + RusLevel5 + RusLevel6
}
