/**
  The project carousel of the portfolio page (components/projects.tsx).

  The component keeps one piece of state, the index of the project on show.
  The "next" and "previous" arrows move it cyclically over the fixed list of
  projects, a row of dots jumps straight to a chosen project, and the dot of
  the project on show is highlighted. The slide that enters and the slide that
  leaves are placed off-screen by an offset computed from the index itself.
 */
module Carousel {

  datatype Option<T> = None | Some(value: T)

  datatype Project = Project(
    title: string,
    description: string,
    image: string,
    github: string,
    tools: seq<string>)

  const PriorityCalculator := Project(
    "Priority Calculator Plus",
    "Manage your work-load with Priority Calculator Plus, an all-in-one productivity platform for scheduling and optimizing your time management.",
    "./project1.png",
    "https://github.com/HarsukritP/PriorityCalculatorPlus",
    ["React", "Node.js", "Express", "MongoDB"])

  const ImageClassifier := Project(
    "CIFAR-10 Image Classifier",
    "An ML model based on the CIFAR-10 database, to recognize and classify any image, with 95% accuracy and 94% improved efficiency.",
    "./project2.png",
    "https://github.com/HarsukritP/CIFAR10-Image-Classifier",
    ["Python", "TensorFlow", "Keras", "NumPy"])

  const AlarmSystem := Project(
    "Dormitory Security Alarm System",
    "Created a dorm room security device to track valuables, detect break-ins and alert users to protect them and their valuables.",
    "./project4.png",
    "https://github.com/HarsukritP/ECE198-Alarm-System",
    ["Arduino", "C++", "IoT"])

  const WeaponsBrowser := Project(
    "Elden Ring Weapons Browser",
    "Utilizes scraped data from the video game to simulate weapon stats for 1000+ cases by utilizing OOP to factor in game conditions.",
    "./project5.png",
    "https://github.com/HarsukritP/EldenRingWeaponBrowser",
    ["Python", "BeautifulSoup", "Pandas", "OOP"])

  /** The fixed list of projects the carousel cycles through. */
  function Projects(): (r: seq<Project>)
    ensures |r| == 4
  {
    [PriorityCalculator, ImageClassifier, AlarmSystem, WeaponsBrowser]
  }

  // ---------------------------------------------------------------------------
  // Index arithmetic
  // ---------------------------------------------------------------------------

  /**
    JavaScript's `%` operator on integers: the remainder of a division that
    truncates toward zero, so the result takes the sign of the dividend
    (unlike Dafny's `%`, whose result is never negative).
   */
  function JsRem(a: int, n: int): (r: int)
    requires n > 0
    ensures 0 <= a ==> 0 <= r < n
    ensures a <= 0 ==> -n < r <= 0
    ensures 0 <= a ==> r == a % n
  {
    if a >= 0 then a % n else -((-a) % n)
  }

  /** The index `nextProject` moves to: `(i + 1) % n`. */
  function NextIndex(i: int, n: int): (r: int)
    requires n > 0
    ensures 0 <= i ==> 0 <= r < n
    ensures 0 <= i < n ==> r == (if i == n - 1 then 0 else i + 1)
  {
    JsRem(i + 1, n)
  }

  /** The index `prevProject` moves to: `(i - 1 + n) % n`. */
  function PrevIndex(i: int, n: int): (r: int)
    requires n > 0
    ensures 0 <= i ==> 0 <= r < n
    ensures 0 <= i < n ==> r == (if i == 0 then n - 1 else i - 1)
  {
    JsRem(i - 1 + n, n)
  }

  /** Without the `+ n`, stepping back from the first project would give -1. */
  lemma PrevNeedsOffset(n: int)
    requires n > 1
    ensures JsRem(0 - 1, n) == -1
    ensures PrevIndex(0, n) == n - 1
  {
  }

  lemma PrevUndoesNext(i: int, n: int)
    requires 0 <= i < n
    ensures PrevIndex(NextIndex(i, n), n) == i
  {
  }

  lemma NextUndoesPrev(i: int, n: int)
    requires 0 <= i < n
    ensures NextIndex(PrevIndex(i, n), n) == i
  {
  }

  /** The index after pressing "next" k times, starting from i. */
  function NextIter(k: nat, i: int, n: int): int
    requires n > 0
    decreases k
  {
    if k == 0 then i else NextIndex(NextIter(k - 1, i, n), n)
  }

  /** The index after pressing "previous" k times, starting from i. */
  function PrevIter(k: nat, i: int, n: int): int
    requires n > 0
    decreases k
  {
    if k == 0 then i else PrevIndex(PrevIter(k - 1, i, n), n)
  }

  /** Up to n presses of "next" advance the index by k, wrapping once. */
  lemma {:induction false} NextIterOffset(k: nat, i: int, n: int)
    requires 0 <= i < n && k <= n
    ensures NextIter(k, i, n) == if i + k < n then i + k else i + k - n
  {
    if k > 0 {
      NextIterOffset(k - 1, i, n);
    }
  }

  /** Up to n presses of "previous" move the index back by k, wrapping once. */
  lemma {:induction false} PrevIterOffset(k: nat, i: int, n: int)
    requires 0 <= i < n && k <= n
    ensures PrevIter(k, i, n) == if k <= i then i - k else i - k + n
  {
    if k > 0 {
      PrevIterOffset(k - 1, i, n);
    }
  }

  /** Pressing "next" once per project brings the carousel back where it was. */
  lemma NextCycle(i: int, n: int)
    requires 0 <= i < n
    ensures NextIter(n, i, n) == i
  {
    NextIterOffset(n, i, n);
  }

  /** Pressing "previous" once per project brings the carousel back where it was. */
  lemma PrevCycle(i: int, n: int)
    requires 0 <= i < n
    ensures PrevIter(n, i, n) == i
  {
    PrevIterOffset(n, i, n);
  }

  /** Presses of "next" compose: a presses followed by b presses are a + b presses. */
  lemma {:induction false} NextIterCompose(a: nat, b: nat, i: int, n: int)
    requires n > 0
    ensures NextIter(a + b, i, n) == NextIter(b, NextIter(a, i, n), n)
  {
    if b > 0 {
      NextIterCompose(a, b - 1, i, n);
      assert a + b - 1 == a + (b - 1);
    }
  }

  /** Any number of presses of "next" only depends on the count modulo n. */
  lemma NextIterPeriodic(k: nat, i: int, n: int)
    requires 0 <= i < n
    ensures NextIter(k + n, i, n) == NextIter(k, i, n)
  {
    NextIterCompose(n, k, i, n);
    NextCycle(i, n);
  }

  // ---------------------------------------------------------------------------
  // The dot indicator
  // ---------------------------------------------------------------------------

  /** For each of the n dots, whether it is drawn highlighted. */
  function DotStates(n: nat, current: int): (r: seq<bool>)
    ensures |r| == n
    ensures forall i :: 0 <= i < n ==> (r[i] <==> i == current)
  {
    seq(n, i => i == current)
  }

  /** The number of highlighted dots. */
  function CountActive(s: seq<bool>): nat
  {
    if s == [] then 0 else CountActive(s[..|s| - 1]) + (if s[|s| - 1] then 1 else 0)
  }

  lemma {:induction false} CountActiveAt(s: seq<bool>, c: int)
    requires forall i :: 0 <= i < |s| ==> (s[i] <==> i == c)
    ensures CountActive(s) == if 0 <= c < |s| then 1 else 0
  {
    if s != [] {
      var p := s[..|s| - 1];
      assert forall i :: 0 <= i < |p| ==> p[i] == s[i];
      CountActiveAt(p, c);
    }
  }

  /** Exactly one dot is highlighted, the dot of the project on show. */
  lemma ExactlyOneActiveDot(n: nat, current: int)
    requires 0 <= current < n
    ensures CountActive(DotStates(n, current)) == 1
    ensures forall i :: 0 <= i < n && DotStates(n, current)[i] ==> i == current
  {
    CountActiveAt(DotStates(n, current), current);
  }

  // ---------------------------------------------------------------------------
  // Slide placement
  // ---------------------------------------------------------------------------

  /** A slide's animation target: horizontal offset, opacity and stacking order. */
  datatype Pose = Pose(x: int, opacity: int, zIndex: Option<int>)

  /** Where an entering slide starts, as a function of the animation's custom value. */
  function Enter(direction: int): (p: Pose)
    ensures p.opacity == 0 && p.zIndex == None
    ensures p.x == 1000 || p.x == -1000
  {
    Pose(if direction > 0 then 1000 else -1000, 0, None)
  }

  /** The resting pose of the slide on show. */
  function Center(): (p: Pose)
    ensures p.x == 0 && p.opacity == 1 && p.zIndex == Some(1)
  {
    Pose(0, 1, Some(1))
  }

  /** Where a leaving slide ends, as a function of the animation's custom value. */
  function Exit(direction: int): (p: Pose)
    ensures p.opacity == 0 && p.zIndex == Some(0)
    ensures p.x == 1000 || p.x == -1000
  {
    Pose(if direction < 0 then 1000 else -1000, 0, Some(0))
  }

  /** A leaving slide is stacked below the slide on show. */
  lemma ExitBelowCenter(direction: int)
    ensures Exit(direction).zIndex.Some? && Center().zIndex.Some?
    ensures Exit(direction).zIndex.value < Center().zIndex.value
  {
  }

  /** Entering from the right happens iff the custom value is positive. */
  lemma EnterSide(direction: int)
    ensures Enter(direction).x == 1000 <==> direction > 0
    ensures Enter(direction).x == -1000 <==> direction <= 0
  {
  }

  /** Leaving to the right happens iff the custom value is negative. */
  lemma ExitSide(direction: int)
    ensures Exit(direction).x == 1000 <==> direction < 0
    ensures Exit(direction).x == -1000 <==> direction >= 0
  {
  }

  /**
    The custom value handed to the animation is the index of the project on
    show, never negative: a leaving slide always goes out to the left, and the
    new slide comes in from the right unless it is the first project. For
    i > 0, going back from project i + 1 to project i thus still brings
    project i in from the right.
   */
  lemma SlideSidesForIndex(index: int)
    requires 0 <= index
    ensures Exit(index).x == -1000
    ensures Enter(index).x == (if index == 0 then -1000 else 1000)
  {
  }

  // ---------------------------------------------------------------------------
  // The component's state
  // ---------------------------------------------------------------------------

  class ProjectCarousel {
    const projects: seq<Project>
    var currentIndex: int

    /** The index always designates a project of the (non-empty) list. */
    ghost predicate Valid()
      reads this
    {
      |projects| > 0 && 0 <= currentIndex < |projects|
    }

    /** The carousel starts on the first of its four projects. */
    constructor ()
      ensures Valid()
      ensures projects == Projects() && |projects| == 4
      ensures currentIndex == 0
    {
      projects := Projects();
      currentIndex := 0;
    }

    /** The "next" arrow. */
    method NextProject()
      requires Valid()
      modifies this
      ensures Valid()
      ensures currentIndex == NextIndex(old(currentIndex), |projects|)
      ensures currentIndex == if old(currentIndex) == |projects| - 1 then 0 else old(currentIndex) + 1
    {
      currentIndex := NextIndex(currentIndex, |projects|);
    }

    /** The "previous" arrow. */
    method PrevProject()
      requires Valid()
      modifies this
      ensures Valid()
      ensures currentIndex == PrevIndex(old(currentIndex), |projects|)
      ensures currentIndex == if old(currentIndex) == 0 then |projects| - 1 else old(currentIndex) - 1
    {
      currentIndex := PrevIndex(currentIndex, |projects|);
    }

    /** A click on dot `index`; the dots are one per project, so the index is in range. */
    method SelectDot(index: int)
      requires Valid()
      requires 0 <= index < |projects|
      modifies this
      ensures Valid()
      ensures currentIndex == index
    {
      currentIndex := index;
    }

    /** The highlight state of every dot. */
    function Dots(): (r: seq<bool>)
      reads this
      requires Valid()
      ensures |r| == |projects|
      ensures CountActive(r) == 1
      ensures forall i :: 0 <= i < |r| ==> (r[i] <==> i == currentIndex)
    {
      ExactlyOneActiveDot(|projects|, currentIndex);
      DotStates(|projects|, currentIndex)
    }

    /** The project whose image, title, description, tools and link are shown. */
    function CurrentProject(): (p: Project)
      reads this
      requires Valid()
      ensures p in projects
    {
      projects[currentIndex]
    }

    /** The pose the slide on show entered from. */
    function EnterPose(): (p: Pose)
      reads this
      requires Valid()
      ensures p.x == (if currentIndex == 0 then -1000 else 1000)
    {
      SlideSidesForIndex(currentIndex);
      Enter(currentIndex)
    }

    /**
     * The pose the slide on show leaves to. An exiting slide is given the
     * new index as its custom value, and every non-negative index, the new
     * one included, sends it to the left.
     */
    function ExitPose(): (p: Pose)
      reads this
      requires Valid()
      ensures p.x == -1000
    {
      SlideSidesForIndex(currentIndex);
      Exit(currentIndex)
    }
  }
}
