/**
 * The text form that `operator<<` writes for a link state:
 *   <link name='NAME'><pose>x y z rx ry rz </pose><velocity>... </velocity></link>
 * with the pose numbers in fixed notation at precision 5 and the velocity
 * numbers at precision 4. Acceleration, wrench and the collision states are
 * not written.
 *
 * A number in fixed notation is the piece Fixed(negative, units, p): a minus
 * sign when negative, then units / 10^p written with exactly p digits after
 * the point. Its digit characters are fully determined by those three
 * fields, so two numbers print the same text exactly when their pieces are
 * equal. Numbers written in the default (non-fixed) notation are the
 * abstract piece General(value, p).
 */
module LinkStateText {
  import opened Wrappers
  import opened IgnMath
  import opened LinkStates

  datatype Piece =
    | Chr(c: char)
    | Fixed(negative: bool, units: nat, precision: nat)
    | General(value: real, precision: nat)

  /** 10^p */
  function Pow10(p: nat): (r: nat)
    ensures r >= 1
  {
    if p == 0 then 1 else 10 * Pow10(p - 1)
  }

  function Abs(x: real): real {
    if x < 0.0 then -x else x
  }

  /** The signed number of 10^-p units a fixed-notation piece shows. */
  function ShownUnits(d: Piece): int
    requires d.Fixed?
  {
    if d.negative then -(d.units as int) else d.units as int
  }

  /** v in fixed notation at precision p: the sign of v, and |v| rounded to
      the nearest multiple of 10^-p (halves away from zero). A small
      negative value shows as minus zero. The shown value is within half a
      unit of the last place of v. */
  function RenderFixed(v: real, p: nat): (d: Piece)
    ensures d.Fixed? && d.precision == p && d.negative == (v < 0.0)
    ensures -0.5 <= ShownUnits(d) as real - v * Pow10(p) as real <= 0.5
  {
    var scale := Pow10(p) as real;
    var s := Abs(v) * scale;
    assert s >= 0.0 && v * scale == (if v < 0.0 then -s else s);
    var u := (s + 0.5).Floor;
    Fixed(v < 0.0, u as nat, p)
  }

  /** v under the stream's current notation and precision. */
  function Render(v: real, fixed: bool, p: nat): Piece {
    if fixed then RenderFixed(v, p) else General(v, p)
  }

  /** The pieces of a character string. */
  function Str(s: string): seq<Piece> {
    seq(|s|, i requires 0 <= i < |s| => Chr(s[i]))
  }

  /** An output stream: what has been written so far, and the two pieces of
      formatting state (std::fixed and std::setprecision) that persist
      between insertions. */
  class OutStream {
    var text: seq<Piece>
    var fixed: bool
    var precision: nat

    /** A fresh stream: empty, default float notation, precision 6. */
    constructor ()
      ensures text == [] && !fixed && precision == 6
    {
      text, fixed, precision := [], false, 6;
    }

    /** `<< std::fixed` */
    method SetFixed()
      modifies this
      ensures fixed && precision == old(precision) && text == old(text)
    {
      fixed := true;
    }

    /** `<< std::setprecision(p)` */
    method SetPrecision(p: nat)
      modifies this
      ensures precision == p && fixed == old(fixed) && text == old(text)
    {
      precision := p;
    }

    /** `<< s` for a string. */
    method WriteString(s: string)
      modifies this
      ensures text == old(text) + Str(s)
      ensures fixed == old(fixed) && precision == old(precision)
    {
      text := text + Str(s);
    }

    /** `<< v` for a double, rendered under the current format. */
    method WriteReal(v: real)
      modifies this
      ensures text == old(text) + [Render(v, fixed, precision)]
      ensures fixed == old(fixed) && precision == old(precision)
    {
      text := text + [Render(v, fixed, precision)];
    }
  }

  /** Each value in fixed notation at precision p. */
  function RenderAll(vs: seq<real>, p: nat): seq<Piece> {
    seq(|vs|, i requires 0 <= i < |vs| => RenderFixed(vs[i], p))
  }

  /** Rendered numbers, each followed by a space. */
  function TextFields(ds: seq<Piece>): (t: seq<Piece>)
    ensures |t| == 2 * |ds|
  {
    if ds == [] then [] else [ds[0], Chr(' ')] + TextFields(ds[1..])
  }

  /** What the text form shows of a link: its name and its pose and velocity
      components as rendered. */
  datatype LinkText = LinkText(name: string, pose: seq<Piece>, velocity: seq<Piece>)

  /** What `operator<<` shows of a link with this name, pose and velocity:
      the pose at precision 5, the velocity at precision 4. */
  function Rendered(name: string, pose: Pose3, velocity: Pose3): LinkText {
    LinkText(name, RenderAll(pose.Components(), 5), RenderAll(velocity.Components(), 4))
  }

  /** The opening tag with the name, the pose section, the velocity section
      and the closing tag. */
  function TextOf(r: LinkText): seq<Piece> {
    Head(r.name) + (Section("pose", r.pose) + (Section("velocity", r.velocity) + Str("</link>")))
  }

  /** `<link name='NAME'>` */
  function Head(name: string): seq<Piece> {
    Str("<link name='") + (Str(name) + Str("'>"))
  }

  /** `<tag>`, the numbers each followed by a space, `</tag>`. */
  function Section(tag: string, ds: seq<Piece>): seq<Piece> {
    Str("<" + tag + ">") + (TextFields(ds) + Str("</" + tag + ">"))
  }

  /** The text `operator<<` writes for a link with this name, pose and velocity. */
  function Serialized(name: string, pose: Pose3, velocity: Pose3): seq<Piece> {
    TextOf(Rendered(name, pose, velocity))
  }

  /** Six numbers in fixed notation at precision p. */
  ghost predicate FixedFields(ds: seq<Piece>, p: nat) {
    |ds| == 6 && forall i :: 0 <= i < |ds| ==> ds[i].Fixed? && ds[i].precision == p
  }

  /** A link text the reader can take apart: a name without a quote, six
      pose numbers at precision 5, six velocity numbers at precision 4. */
  ghost predicate Readable(r: LinkText) {
    '\'' !in r.name && FixedFields(r.pose, 5) && FixedFields(r.velocity, 4)
  }

  // ---------------------------------------------------------------------
  // A reader for the text form: what it accepts is exactly what the writer
  // produces.

  /** Consumes the literal lit at the front of t. */
  function Expect(t: seq<Piece>, lit: string): Option<seq<Piece>> {
    if |lit| <= |t| && t[..|lit|] == Str(lit) then Some(t[|lit|..]) else None
  }

  /** Reads characters up to, not including, the first quote. */
  function ReadName(t: seq<Piece>): Option<(string, seq<Piece>)> {
    if t == [] || !t[0].Chr? then None
    else if t[0].c == '\'' then Some(("", t))
    else
      match ReadName(t[1..])
      case None => None
      case Some((n, rest)) => Some(([t[0].c] + n, rest))
  }

  /** Reads count numbers in fixed notation at precision p, each followed by a space. */
  function ReadFields(t: seq<Piece>, count: nat, p: nat): Option<(seq<Piece>, seq<Piece>)> {
    if count == 0 then Some(([], t))
    else if 2 <= |t| && t[0].Fixed? && t[0].precision == p && t[1] == Chr(' ') then
      match ReadFields(t[2..], count - 1, p)
      case None => None
      case Some((ds, rest)) => Some(([t[0]] + ds, rest))
    else None
  }

  /** Reads `<link name='NAME'>`. */
  function ReadHead(t: seq<Piece>): Option<(string, seq<Piece>)> {
    var t1 :- Expect(t, "<link name='");
    var named :- ReadName(t1);
    var t2 :- Expect(named.1, "'>");
    Some((named.0, t2))
  }

  /** Reads `<tag>`, six numbers at precision p, `</tag>`. */
  function ReadSection(t: seq<Piece>, tag: string, p: nat): Option<(seq<Piece>, seq<Piece>)> {
    var t1 :- Expect(t, "<" + tag + ">");
    var fields :- ReadFields(t1, 6, p);
    var t2 :- Expect(fields.1, "</" + tag + ">");
    Some((fields.0, t2))
  }

  /** Reads a whole link text; anything left over is rejected. */
  function ParseLink(t: seq<Piece>): Option<LinkText> {
    var head :- ReadHead(t);
    var pose :- ReadSection(head.1, "pose", 5);
    var velocity :- ReadSection(pose.1, "velocity", 4);
    var rest :- Expect(velocity.1, "</link>");
    if rest == [] then Some(LinkText(head.0, pose.0, velocity.0)) else None
  }

  // ---------------------------------------------------------------------
  // Reading what was written.

  lemma ExpectLiteral(lit: string, rest: seq<Piece>)
    ensures Expect(Str(lit) + rest, lit) == Some(rest)
  {
  }

  lemma {:induction false} ReadNameWritten(name: string, rest: seq<Piece>)
    requires '\'' !in name
    requires rest != [] && rest[0] == Chr('\'')
    ensures ReadName(Str(name) + rest) == Some((name, rest))
  {
    if name == [] {
      assert Str(name) + rest == rest;
    } else {
      var t := Str(name) + rest;
      assert t[0] == Chr(name[0]);
      assert t[1..] == Str(name[1..]) + rest;
      ReadNameWritten(name[1..], rest);
      assert [name[0]] + name[1..] == name;
    }
  }

  lemma {:induction false} ReadFieldsWritten(ds: seq<Piece>, p: nat, rest: seq<Piece>)
    requires forall i :: 0 <= i < |ds| ==> ds[i].Fixed? && ds[i].precision == p
    ensures ReadFields(TextFields(ds) + rest, |ds|, p) == Some((ds, rest))
  {
    if ds != [] {
      var tail := TextFields(ds[1..]) + rest;
      var t := [ds[0], Chr(' ')] + tail;
      assert TextFields(ds) + rest == t;
      assert t[2..] == tail;
      ReadFieldsWritten(ds[1..], p, rest);
      assert ReadFields(tail, |ds| - 1, p) == Some((ds[1..], rest));
      assert [ds[0]] + ds[1..] == ds;
    } else {
      assert TextFields(ds) + rest == rest;
    }
  }

  lemma ReadHeadWritten(name: string, rest: seq<Piece>)
    requires '\'' !in name
    ensures ReadHead(Head(name) + rest) == Some((name, rest))
  {
    var t2 := Str("'>") + rest;
    assert Head(name) + rest == Str("<link name='") + (Str(name) + t2);
    ExpectLiteral("<link name='", Str(name) + t2);
    ReadNameWritten(name, t2);
    ExpectLiteral("'>", rest);
  }

  lemma ReadSectionWritten(tag: string, ds: seq<Piece>, p: nat, rest: seq<Piece>)
    requires FixedFields(ds, p)
    ensures ReadSection(Section(tag, ds) + rest, tag, p) == Some((ds, rest))
  {
    var close := Str("</" + tag + ">") + rest;
    assert Section(tag, ds) + rest == Str("<" + tag + ">") + (TextFields(ds) + close);
    ExpectLiteral("<" + tag + ">", TextFields(ds) + close);
    ReadFieldsWritten(ds, p, close);
    ExpectLiteral("</" + tag + ">", rest);
  }

  /** A readable link text reads back as itself. */
  lemma ParseText(r: LinkText)
    requires Readable(r)
    ensures ParseLink(TextOf(r)) == Some(r)
  {
    var tail := Str("</link>");
    var vt := Section("velocity", r.velocity) + tail;
    var pt := Section("pose", r.pose) + vt;
    ReadHeadWritten(r.name, pt);
    ReadSectionWritten("pose", r.pose, 5, vt);
    ReadSectionWritten("velocity", r.velocity, 4, tail);
    ExpectLiteral("</link>", []);
    assert tail + [] == tail;
  }

  // ---------------------------------------------------------------------
  // Writing what was read.

  lemma ExpectSplits(t: seq<Piece>, lit: string)
    requires Expect(t, lit).Some?
    ensures t == Str(lit) + Expect(t, lit).value
  {
  }

  lemma {:induction false} ReadNameSplits(t: seq<Piece>)
    requires ReadName(t).Some?
    ensures t == Str(ReadName(t).value.0) + ReadName(t).value.1
    ensures '\'' !in ReadName(t).value.0
    ensures ReadName(t).value.1 != [] && ReadName(t).value.1[0] == Chr('\'')
  {
    assert t != [] && t[0].Chr?;
    var c := t[0].c;
    if c == '\'' {
      assert ReadName(t) == Some(("", t));
      assert Str("") + t == t;
    } else {
      var tail := ReadName(t[1..]);
      assert tail.Some?;
      var n, rest := tail.value.0, tail.value.1;
      assert ReadName(t) == Some(([c] + n, rest));
      ReadNameSplits(t[1..]);
      assert Str([c] + n) == [Chr(c)] + Str(n);
      assert t == [Chr(c)] + t[1..];
    }
  }

  lemma {:induction false} ReadFieldsSplits(t: seq<Piece>, count: nat, p: nat)
    requires ReadFields(t, count, p).Some?
    ensures var ds := ReadFields(t, count, p).value.0;
            |ds| == count && forall i :: 0 <= i < |ds| ==> ds[i].Fixed? && ds[i].precision == p
    ensures t == TextFields(ReadFields(t, count, p).value.0) + ReadFields(t, count, p).value.1
  {
    if count == 0 {
      assert ReadFields(t, count, p) == Some(([], t));
      assert TextFields([]) + t == t;
    } else {
      var tail := ReadFields(t[2..], count - 1, p);
      assert tail.Some?;
      var ds, rest := tail.value.0, tail.value.1;
      var all := [t[0]] + ds;
      assert ReadFields(t, count, p) == Some((all, rest));
      ReadFieldsSplits(t[2..], count - 1, p);
      assert all[1..] == ds;
      assert TextFields(all) == [t[0], Chr(' ')] + TextFields(ds);
      assert t == [t[0], t[1]] + t[2..];
    }
  }

  lemma ReadHeadSplits(t: seq<Piece>)
    requires ReadHead(t).Some?
    ensures t == Head(ReadHead(t).value.0) + ReadHead(t).value.1
    ensures '\'' !in ReadHead(t).value.0
  {
    var t1 := Expect(t, "<link name='").value;
    ExpectSplits(t, "<link name='");
    var named := ReadName(t1).value;
    ReadNameSplits(t1);
    ExpectSplits(named.1, "'>");
  }

  lemma ReadSectionSplits(t: seq<Piece>, tag: string, p: nat)
    requires ReadSection(t, tag, p).Some?
    ensures FixedFields(ReadSection(t, tag, p).value.0, p)
    ensures t == Section(tag, ReadSection(t, tag, p).value.0) + ReadSection(t, tag, p).value.1
  {
    var t1 := Expect(t, "<" + tag + ">").value;
    ExpectSplits(t, "<" + tag + ">");
    var fields := ReadFields(t1, 6, p).value;
    ReadFieldsSplits(t1, 6, p);
    ExpectSplits(fields.1, "</" + tag + ">");
  }

  /** Every text the reader accepts is readable and is exactly the text of
      what it read. */
  lemma TextParsed(t: seq<Piece>)
    requires ParseLink(t).Some?
    ensures Readable(ParseLink(t).value)
    ensures t == TextOf(ParseLink(t).value)
  {
    var head := ReadHead(t).value;
    ReadHeadSplits(t);
    var pose := ReadSection(head.1, "pose", 5).value;
    ReadSectionSplits(head.1, "pose", 5);
    var velocity := ReadSection(pose.1, "velocity", 4).value;
    ReadSectionSplits(pose.1, "velocity", 4);
    ExpectSplits(velocity.1, "</link>");
    assert Expect(velocity.1, "</link>").value == [];
    assert Str("</link>") + [] == Str("</link>");
  }

  // ---------------------------------------------------------------------
  // What the written text tells about the link.

  lemma Pow10Values()
    ensures Pow10(4) == 10000 && Pow10(5) == 100000
  {
  }

  /** The text of a link whose name has no quote reads back as its name and
      its pose and velocity rounded to 5 and 4 decimals: each number read is
      within half a unit of the last printed place of the component. */
  lemma ParseSerialized(name: string, pose: Pose3, velocity: Pose3)
    requires '\'' !in name
    ensures ParseLink(Serialized(name, pose, velocity)) == Some(Rendered(name, pose, velocity))
    ensures var r := Rendered(name, pose, velocity);
            forall k :: 0 <= k < 6 ==>
              -0.5 <= ShownUnits(r.pose[k]) as real - pose.Components()[k] * 100000.0 <= 0.5
    ensures var r := Rendered(name, pose, velocity);
            forall k :: 0 <= k < 6 ==>
              -0.5 <= ShownUnits(r.velocity[k]) as real - velocity.Components()[k] * 10000.0 <= 0.5
  {
    Pow10Values();
    ParseText(Rendered(name, pose, velocity));
  }

  /** For quote-free names, two links are written as the same text exactly
      when they have the same name and their pose and velocity components
      round to the same printed numbers. */
  lemma SerializedEqualIff(n1: string, p1: Pose3, v1: Pose3, n2: string, p2: Pose3, v2: Pose3)
    requires '\'' !in n1 && '\'' !in n2
    ensures Serialized(n1, p1, v1) == Serialized(n2, p2, v2)
        <==> Rendered(n1, p1, v1) == Rendered(n2, p2, v2)
  {
    if Serialized(n1, p1, v1) == Serialized(n2, p2, v2) {
      ParseSerialized(n1, p1, v1);
      ParseSerialized(n2, p2, v2);
    }
  }

  /** Rounding to 5 decimals is lossy: poses whose x differs by a millionth
      are written as the same text. */
  lemma RoundingMergesNearbyPoses()
    ensures Serialized("link", Pose3(Vector3(0.000001, 0.0, 0.0), ZeroVector), Zero)
         == Serialized("link", Pose3(Vector3(0.000002, 0.0, 0.0), ZeroVector), Zero)
  {
    assert Pow10(5) == 100000;
    var c1 := Pose3(Vector3(0.000001, 0.0, 0.0), ZeroVector).Components();
    var c2 := Pose3(Vector3(0.000002, 0.0, 0.0), ZeroVector).Components();
    assert RenderFixed(0.000001, 5) == RenderFixed(0.000002, 5);
    assert RenderAll(c1, 5) == RenderAll(c2, 5);
  }

  /** A name with a quote in it is written unescaped, so the text does not
      read back as the link that was written. */
  lemma QuotedNameNotRecovered(name: string, pose: Pose3, velocity: Pose3)
    requires '\'' in name
    ensures ParseLink(Serialized(name, pose, velocity)) != Some(Rendered(name, pose, velocity))
  {
    if ParseLink(Serialized(name, pose, velocity)).Some? {
      TextParsed(Serialized(name, pose, velocity));
    }
  }

  // ---------------------------------------------------------------------
  // operator<<

  /** Six rendered components, spelt out. */
  lemma FieldsOfSix(v: Pose3, p: nat)
    ensures TextFields(RenderAll(v.Components(), p))
         == [RenderFixed(v.pos.x, p), Chr(' '), RenderFixed(v.pos.y, p), Chr(' '),
             RenderFixed(v.pos.z, p), Chr(' '), RenderFixed(v.rot.x, p), Chr(' '),
             RenderFixed(v.rot.y, p), Chr(' '), RenderFixed(v.rot.z, p), Chr(' ')]
  {
    var ds := RenderAll(v.Components(), p);
    assert TextFields(ds[6..]) == [];
    assert TextFields(ds[5..]) == [ds[5], Chr(' ')] + TextFields(ds[6..]);
    assert TextFields(ds[4..]) == [ds[4], Chr(' ')] + TextFields(ds[5..]);
    assert TextFields(ds[3..]) == [ds[3], Chr(' ')] + TextFields(ds[4..]);
    assert TextFields(ds[2..]) == [ds[2], Chr(' ')] + TextFields(ds[3..]);
    assert TextFields(ds[1..]) == [ds[1], Chr(' ')] + TextFields(ds[2..]);
    assert TextFields(ds) == [ds[0], Chr(' ')] + TextFields(ds[1..]);
  }

  /** Writes the three coordinates of a vector, each followed by a space. */
  method WriteVector(out: OutStream, v: Vector3)
    modifies out
    ensures out.text == old(out.text) + [Render(v.x, out.fixed, out.precision), Chr(' '),
                                         Render(v.y, out.fixed, out.precision), Chr(' '),
                                         Render(v.z, out.fixed, out.precision), Chr(' ')]
    ensures out.fixed == old(out.fixed) && out.precision == old(out.precision)
  {
    out.WriteReal(v.x);
    out.WriteString(" ");
    out.WriteReal(v.y);
    out.WriteString(" ");
    out.WriteReal(v.z);
    out.WriteString(" ");
  }

  /** Writes x, y, z of the position and the three Euler angles of the
      rotation, each followed by a space, as both sections of operator<< do. */
  method WriteComponents(out: OutStream, v: Pose3)
    requires out.fixed
    modifies out
    ensures out.text == old(out.text) + TextFields(RenderAll(v.Components(), out.precision))
    ensures out.fixed && out.precision == old(out.precision)
  {
    var q := v.rot;  // Rot().Euler()
    WriteVector(out, v.pos);
    WriteVector(out, q);
    FieldsOfSix(v, out.precision);
  }

  /** Writes `<link name='NAME'>`. */
  method WriteHead(out: OutStream, name: string)
    modifies out
    ensures out.text == old(out.text) + Head(name)
    ensures out.fixed == old(out.fixed) && out.precision == old(out.precision)
  {
    out.WriteString("<link name='");
    out.WriteString(name);
    out.WriteString("'>");
  }

  /** Writes `<tag>`, the six components in the current format and `</tag>`. */
  method WriteSection(out: OutStream, tag: string, value: Pose3)
    requires out.fixed
    modifies out
    ensures out.text == old(out.text) + Section(tag, RenderAll(value.Components(), out.precision))
    ensures out.fixed && out.precision == old(out.precision)
  {
    out.WriteString("<" + tag + ">");
    WriteComponents(out, value);
    out.WriteString("</" + tag + ">");
  }

  /** Writes the pose section at the current precision, switches to
      precision 4, writes the velocity section and the closing tag. */
  method WriteBody(out: OutStream, pose: Pose3, velocity: Pose3)
    requires out.fixed
    modifies out
    ensures out.text == old(out.text) + (Section("pose", RenderAll(pose.Components(), old(out.precision)))
                                       + (Section("velocity", RenderAll(velocity.Components(), 4)) + Str("</link>")))
    ensures out.fixed && out.precision == 4
  {
    WriteSection(out, "pose", pose);

    out.SetFixed();
    out.SetPrecision(4);
    WriteSection(out, "velocity", velocity);
    // Acceleration, wrench and the collision states are not written.
    out.WriteString("</link>");
  }

  /** Writes a link state to a stream: fixed notation at precision 5 for the
      name and the pose section, then precision 4 for the velocity section,
      then the closing tag. The stream is left in fixed notation at
      precision 4. */
  method WriteLinkState(out: OutStream, state: LinkState)
    modifies out
    ensures out.text == old(out.text) + Serialized(state.name, state.pose, state.velocity)
    ensures out.fixed && out.precision == 4
  {
    var name, pose, velocity := state.name, state.pose, state.velocity;
    out.SetFixed();
    out.SetPrecision(5);
    WriteHead(out, name);
    WriteBody(out, pose, velocity);
  }
}
