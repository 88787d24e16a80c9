/** The canvas background image chosen for a colorway and a renderer size. */
module Background {

  datatype Colorway = Pink | Grey

  /** `bgPath(colorway, w, h)`: a landscape or square renderer takes the desktop image,
    * a portrait one the mobile image; the tone follows the colorway. */
  function BgPath(colorway: Colorway, w: real, h: real): (path: string)
    ensures |path| > |"/cards/canvas/"| && path[..|"/cards/canvas/"|] == "/cards/canvas/"
  {
    var variant := if w >= h then "Desktop" else "Mobile";
    var tone := if colorway == Pink then "Pink" else "Grey";
    "/cards/canvas/" + tone + "-" + variant + ".png"
  }

  /** The four possible paths, each fixed by orientation and colorway alone. */
  lemma BgPathCases(colorway: Colorway, w: real, h: real)
    ensures w >= h && colorway == Pink ==> BgPath(colorway, w, h) == "/cards/canvas/Pink-Desktop.png"
    ensures w >= h && colorway == Grey ==> BgPath(colorway, w, h) == "/cards/canvas/Grey-Desktop.png"
    ensures w < h && colorway == Pink ==> BgPath(colorway, w, h) == "/cards/canvas/Pink-Mobile.png"
    ensures w < h && colorway == Grey ==> BgPath(colorway, w, h) == "/cards/canvas/Grey-Mobile.png"
  {
    var variant := if w >= h then "Desktop" else "Mobile";
    var tone := if colorway == Pink then "Pink" else "Grey";
    assert BgPath(colorway, w, h) == "/cards/canvas/" + tone + "-" + variant + ".png";
  }

  /** Different orientations or different colorways never share an image. */
  lemma BgPathInjective(c1: Colorway, w1: real, h1: real, c2: Colorway, w2: real, h2: real)
    requires BgPath(c1, w1, h1) == BgPath(c2, w2, h2)
    ensures c1 == c2 && (w1 >= h1 <==> w2 >= h2)
  {
    var p1 := BgPath(c1, w1, h1);
    var p2 := BgPath(c2, w2, h2);
    assert p1[14] == p2[14];
    assert |p1| == |p2|;
  }
}
