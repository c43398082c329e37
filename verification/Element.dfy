/**
 Drawing elements: one record of fields shared by all kinds, a type tag saying which of them are
 meant, guarded getters, and the translation to and from messages.
 */
module Element {
  datatype Point = Point(x: real, y: real)

  datatype Tag =
    PathTag | LineTag | CircleTag | TriangleTag | SquareTag | TextTag | PictureTag | StickyNoteTag | NullTag

  /** What an element shows: the fields its type gives a meaning to, and nothing of the others. */
  datatype Shape =
    | Path(points: seq<Point>)
    | Line(start: Point, end: Point)
    | Circle(center: Point, radius: real)
    | Triangle(p1: Point, p2: Point, p3: Point)
    | Square(topLeft: Point, side: real)
    | Text(center: Point, content: string)
    | Picture(center: Point, data: string, file: string)
    | StickyNote(center: Point, side: real, content: string)
    | Null

  /** protobuf::Element; NoElement when none of the one-of fields is set. */
  datatype Message =
    | PathMessage(points: seq<Point>)
    | LineMessage(start: Point, end: Point)
    | CircleMessage(center: Point, radius: real)
    | TriangleMessage(point1: Point, point2: Point, point3: Point)
    | SquareMessage(topLeft: Point, sideLength: real)
    | TextMessage(center: Point, content: string)
    | PictureMessage(fileName: string, center: Point, data: string)
    | StickyNoteMessage(center: Point, sideLength: real, content: string)
    | NoElement

  /** The message that shows what the element shows. */
  function Encode(s: Shape): Message {
    match s
    case Path(points) => PathMessage(points)
    case Line(a, b) => LineMessage(a, b)
    case Circle(c, r) => CircleMessage(c, r)
    case Triangle(a, b, c) => TriangleMessage(a, b, c)
    case Square(p, n) => SquareMessage(p, n)
    case Text(c, t) => TextMessage(c, t)
    case Picture(c, d, f) => PictureMessage(f, c, d)
    case StickyNote(c, n, t) => StickyNoteMessage(c, n, t)
    case Null => NoElement
  }

  /** Every field of the message holds what the element shows under that name. */
  lemma EncodeFields(s: Shape)
    ensures var m := Encode(s);
            match s
            case Path(_) => m.PathMessage? && m.points == s.points
            case Line(_, _) => m.LineMessage? && m.start == s.start && m.end == s.end
            case Circle(_, _) => m.CircleMessage? && m.center == s.center && m.radius == s.radius
            case Triangle(_, _, _) =>
              m.TriangleMessage? && m.point1 == s.p1 && m.point2 == s.p2 && m.point3 == s.p3
            case Square(_, _) => m.SquareMessage? && m.topLeft == s.topLeft && m.sideLength == s.side
            case Text(_, _) => m.TextMessage? && m.center == s.center && m.content == s.content
            case Picture(_, _, _) =>
              m.PictureMessage? && m.fileName == s.file && m.center == s.center && m.data == s.data
            case StickyNote(_, _, _) =>
              m.StickyNoteMessage? && m.center == s.center && m.sideLength == s.side && m.content == s.content
            case Null => m.NoElement?
  {
  }

  /** What from_protobuf makes of a message when the element it is called on has this file name. */
  function Decode(m: Message, receiverFile: string): Shape {
    match m
    case PathMessage(points) => Path(points)
    case LineMessage(a, b) => Line(a, b)
    case CircleMessage(c, r) => Circle(c, r)
    case TriangleMessage(a, b, c) => Triangle(a, b, c)
    case SquareMessage(p, n) => Square(p, n)
    case TextMessage(c, t) => Text(c, t)
    case PictureMessage(_, c, d) => Picture(c, d, receiverFile)
    case StickyNoteMessage(c, n, t) => StickyNote(c, n, t)
    case NoElement => Null
  }

  /** An element comes back as it was exactly when it is no picture of another file than the receiver's. */
  lemma RoundTripExactly(s: Shape, receiverFile: string)
    ensures Decode(Encode(s), receiverFile) == s <==> (s.Picture? ==> s.file == receiverFile)
  {
    match s {
      case Picture(_, _, _) =>
      case _ =>
    }
  }

  /** A picture decoded by a new element loses its file name. */
  lemma PictureLosesFileName(center: Point, data: string, file: string)
    requires file != ""
    ensures Decode(Encode(Picture(center, data, file)), "") == Picture(center, data, "")
    ensures Decode(Encode(Picture(center, data, file)), "") != Picture(center, data, file)
  {
    RoundTripExactly(Picture(center, data, file), "");
  }

  /** Two elements that differ have different messages: only from_protobuf loses the file name. */
  lemma EncodeInjective(s: Shape, t: Shape)
    requires Encode(s) == Encode(t)
    ensures s == t
  {
    var f := if s.Picture? then s.file else "";
    RoundTripExactly(s, f);
    RoundTripExactly(t, f);
  }

  /** The table of type names; the empty type, number 16, is not in it. */
  const TYPE_NAMES := ["Path", "Line", "Circle", "Triangle", "Square", "Text", "Picture", "StickyNote"]

  function CastType(tag: Tag): nat {
    match tag
    case PathTag => 0
    case LineTag => 1
    case CircleTag => 2
    case TriangleTag => 3
    case SquareTag => 4
    case TextTag => 5
    case PictureTag => 6
    case StickyNoteTag => 7
    case NullTag => 16
  }

  /**
   A getter's answer: the value, the exception for an element of another type, or, when making the
   exception's text reads past the table of type names, nothing the program defines.
   */
  datatype Result<T> = Ok(value: T) | TypeUnmatch(wanted: string, typeName: string) | Undefined

  /** The name an exception gives to what an element shows. */
  function NameOf(s: Shape): string {
    match s
    case Path(_) => "Path"
    case Line(_, _) => "Line"
    case Circle(_, _) => "Circle"
    case Triangle(_, _, _) => "Triangle"
    case Square(_, _) => "Square"
    case Text(_, _) => "Text"
    case Picture(_, _, _) => "Picture"
    case StickyNote(_, _, _) => "StickyNote"
    case Null => ""
  }

  class WhiteboardElements {
    var tag: Tag
    var pos1: Point
    var pos2: Point
    var pos3: Point
    var side1: real
    var pathPoints: seq<Point>
    var content: string
    var filename: string

    ghost function Shown(): Shape
      reads this
    {
      match tag
      case PathTag => Path(pathPoints)
      case LineTag => Line(pos1, pos2)
      case CircleTag => Circle(pos1, side1)
      case TriangleTag => Triangle(pos1, pos2, pos3)
      case SquareTag => Square(pos1, side1)
      case TextTag => Text(pos1, content)
      case PictureTag => Picture(pos1, content, filename)
      case StickyNoteTag => StickyNote(pos1, side1, content)
      case NullTag => Null
    }

    /** Points and the side start uninitialised. */
    constructor (p: Point, q: Point, r: Point, n: real)
      ensures Shown() == Null && filename == ""
    {
      tag, pos1, pos2, pos3, side1 := NullTag, p, q, r, n;
      pathPoints, content, filename := [], "", "";
    }

    // Whatever an element showed before, after a new_ call it shows that call's arguments alone.

    method NewPath(points: seq<Point>)
      modifies this
      ensures Shown() == Path(points) && filename == old(filename)
    {
      tag, pathPoints := PathTag, points;
    }

    method NewLine(start: Point, end: Point)
      modifies this
      ensures Shown() == Line(start, end) && filename == old(filename)
    {
      tag, pos1, pos2 := LineTag, start, end;
    }

    method NewCircle(center: Point, radius: real)
      modifies this
      ensures Shown() == Circle(center, radius) && filename == old(filename)
    {
      tag, pos1, side1 := CircleTag, center, radius;
    }

    method NewTriangle(p1: Point, p2: Point, p3: Point)
      modifies this
      ensures Shown() == Triangle(p1, p2, p3) && filename == old(filename)
    {
      tag, pos1, pos2, pos3 := TriangleTag, p1, p2, p3;
    }

    method NewSquare(topLeft: Point, side: real)
      modifies this
      ensures Shown() == Square(topLeft, side) && filename == old(filename)
    {
      tag, pos1, side1 := SquareTag, topLeft, side;
    }

    method NewText(center: Point, text: string)
      modifies this
      ensures Shown() == Text(center, text) && filename == old(filename)
    {
      tag, pos1, content := TextTag, center, text;
    }

    method NewStickyNote(center: Point, side: real, text: string)
      modifies this
      ensures Shown() == StickyNote(center, side, text) && filename == old(filename)
    {
      tag, pos1, side1, content := StickyNoteTag, center, side, text;
    }

    method NewPicture(center: Point, data: string, file: string)
      modifies this
      ensures Shown() == Picture(center, data, file) && filename == file
    {
      tag, pos1, content, filename := PictureTag, center, data, file;
    }

    function Unmatch<T>(wanted: string): (r: Result<T>)
      reads this
      ensures r == if Shown().Null? then Undefined else TypeUnmatch(wanted, NameOf(Shown()))
    {
      if CastType(tag) < |TYPE_NAMES| then TypeUnmatch(wanted, TYPE_NAMES[CastType(tag)]) else Undefined
    }

    /** The getter of paths; those of the other types are guarded in the same way. */
    function GetPathPoints(): (r: Result<seq<Point>>)
      reads this
      ensures r == match Shown()
                   case Path(points) => Ok(points)
                   case Null => Undefined
                   case s => TypeUnmatch("path_points", NameOf(s))
    {
      if tag != PathTag then Unmatch("path_points") else Ok(pathPoints)
    }

    function GetTrianglePoints(): (r: Result<seq<Point>>)
      reads this
      ensures r == match Shown()
                   case Triangle(p1, p2, p3) => Ok([p1, p2, p3])
                   case Null => Undefined
                   case s => TypeUnmatch("triangle_points", NameOf(s))
    {
      if tag != TriangleTag then Unmatch("triangle_points") else Ok([pos1, pos2, pos3])
    }

    method ToMessage() returns (m: Message)
      ensures m == Encode(Shown())
    {
      match tag {
        case PathTag =>
          var points := [];
          for i := 0 to |pathPoints|
            invariant points == pathPoints[..i]
          {
            points := points + [Point(pathPoints[i].x, pathPoints[i].y)];
          }
          m := PathMessage(points);
        case LineTag => m := LineMessage(pos1, pos2);
        case CircleTag => m := CircleMessage(pos1, side1);
        case TriangleTag =>
          var points := GetTrianglePoints().value;
          m := TriangleMessage(points[0], points[1], points[2]);
        case SquareTag => m := SquareMessage(pos1, side1);
        case TextTag => m := TextMessage(pos1, content);
        case PictureTag => m := PictureMessage(filename, pos1, content);
        case StickyNoteTag => m := StickyNoteMessage(pos1, side1, content);
        case NullTag => m := NoElement;
      }
    }

    /** Returns a fresh element; the one it is called on stays as it is. */
    method FromMessage(m: Message) returns (e: WhiteboardElements)
      ensures fresh(e) && e.Shown() == Decode(m, filename)
    {
      e := new WhiteboardElements(pos1, pos2, pos3, side1);
      match m {
        case PathMessage(ps) =>
          var points := [];
          for i := 0 to |ps|
            invariant points == ps[..i]
          {
            points := points + [Point(ps[i].x, ps[i].y)];
          }
          e.NewPath(points);
        case LineMessage(a, b) => e.NewLine(a, b);
        case CircleMessage(c, r) => e.NewCircle(c, r);
        case TriangleMessage(a, b, c) => e.NewTriangle(a, b, c);
        case SquareMessage(p, n) => e.NewSquare(p, n);
        case TextMessage(c, t) => e.NewText(c, t);
        case StickyNoteMessage(c, n, t) => e.NewStickyNote(c, n, t);
        case PictureMessage(_, c, d) => e.NewPicture(c, d, filename);
        case NoElement =>
      }
    }
  }

  // ---------------------------------------------------------------- broadcasts

  /**
   The client's handle_broadcast: one element a message. The element from_protobuf returns is
   dropped and the one it was called on is kept, so that every element handed over is empty.
   */
  method HandleBroadcast(messages: seq<Message>, p: Point, n: real) returns (elements: seq<WhiteboardElements>)
    ensures |elements| == |messages|
    ensures forall i :: 0 <= i < |elements| ==> fresh(elements[i]) && elements[i].Shown() == Null
    ensures (forall i :: 0 <= i < |elements| ==> Encode(elements[i].Shown()) == messages[i])
       <==> (forall i :: 0 <= i < |messages| ==> messages[i].NoElement?)
  {
    elements := [];
    for i := 0 to |messages|
      invariant |elements| == i
      invariant forall k :: 0 <= k < i ==> fresh(elements[k]) && elements[k].Shown() == Null
    {
      var temp := new WhiteboardElements(p, p, p, n);
      var _ := temp.FromMessage(messages[i]);
      elements := elements + [temp];
    }
  }
}
