/**
 * The solar-system application (application/source/application_solar.cpp):
 * the planet table, the star buffer, the shader registry with its uniform
 * names, the W/S dolly and the per-frame draw sequence.
 *
 * The GL side effects the model keeps are entries appended to `ApplicationSolar.log`; matrices
 * (glm) are not modelled, so a draw records the program handle it is issued
 * with and the body it is issued for.
 */
module Solar {

  // ---------------------------------------------------------------------
  // Constants of the windowing library (GLFW/glfw3.h)
  // ---------------------------------------------------------------------

  const KeyW: int := 87
  const KeyS: int := 83
  const Press: int := 1

  // ---------------------------------------------------------------------
  // Celestial bodies
  // ---------------------------------------------------------------------

  /** `struct planet`; the source stores single-precision floats, reals keep the tabulated values. */
  datatype Planet = Planet(distance: real, speed: real, size: real, rotation: real, name: string)

  const EarthSize: real := 1.0

  /** A value-initialised `planet()`: every number zero, the name empty. */
  const DefaultPlanet: Planet := Planet(0.0, 0.0, 0.0, 0.0, "")

  /** The nine bodies, in the order the source assigns them (sun, then the planets as listed). */
  function SolarTable(): seq<Planet>
  {
    [ Planet(0.0, 0.0, 7.0, 1.0, "Sun"),
      Planet(8.0, 2.5, EarthSize * 0.7, 1.0, "Mercury"),
      Planet(9.0, 2.0, EarthSize * 0.9, 1.0, "venus"),
      Planet(10.0, 1.2, EarthSize, 1.0, "earth"),
      Planet(11.0, 1.0, EarthSize * 0.5, 1.0, "mars"),
      Planet(15.0, 0.8, EarthSize * 1.4, 1.0, "jupiter"),
      Planet(18.0, 0.7, EarthSize * 1.3, 1.0, "saturn"),
      Planet(14.0, 0.5, EarthSize * 3.0, 1.0, "uranus"),
      Planet(15.0, 0.4, EarthSize * 1.1, 1.0, "neptun") ]
  }

  function Defaults(n: nat): (r: seq<Planet>)
    ensures |r| == n
    ensures forall i :: 0 <= i < n ==> r[i] == DefaultPlanet
  {
    seq(n, _ => DefaultPlanet)
  }

  /** What `initializePlanets` leaves in the global list: nine default entries are
      pushed, then indices 0 to 8 of the WHOLE list are assigned the table. */
  function PlanetsAfterInit(ps: seq<Planet>): (r: seq<Planet>)
    ensures |r| == |ps| + 9
    ensures r[..9] == SolarTable()
    ensures |ps| >= 9 ==> r[9..] == ps[9..] + Defaults(9)
    ensures |ps| < 9 ==> r[9..] == Defaults(|ps|)
  {
    SolarTable() + (ps + Defaults(9))[9..]
  }

  /** What the initialisation evidently means to do: keep the list and append the table. */
  function PlanetsAfterIntendedInit(ps: seq<Planet>): (r: seq<Planet>)
    ensures |r| == |ps| + 9
    ensures r[..|ps|] == ps
    ensures forall i :: 0 <= i < 9 ==> r[|ps| + i] == SolarTable()[i]
  {
    ps + SolarTable()
  }

  /** Starting from the empty list, as the constructor does, the two agree. */
  lemma InitFromEmpty()
    ensures PlanetsAfterInit([]) == PlanetsAfterIntendedInit([]) == SolarTable()
  {
  }

  /** A second initialisation does not append a second table: the old entries are
      re-assigned and the nine new entries stay default. */
  lemma SecondInitDiffers()
    ensures PlanetsAfterInit(SolarTable()) == SolarTable() + Defaults(9)
    ensures PlanetsAfterInit(SolarTable())[9] == DefaultPlanet
    ensures PlanetsAfterIntendedInit(SolarTable())[9] == SolarTable()[0]
    ensures PlanetsAfterInit(SolarTable()) != PlanetsAfterIntendedInit(SolarTable())
  {
    var t := SolarTable();
    assert PlanetsAfterInit(t)[9..] == t[9..] + Defaults(9);
    assert t[9..] == [];
    assert PlanetsAfterInit(t)[9] == PlanetsAfterInit(t)[9..][0];
    assert PlanetsAfterIntendedInit(t)[9] == t[0];
  }

  /** The table as tabulated: distances in table order (not sorted), every rotation 1,
      only the sun at rest, only earth of exactly unit size. */
  lemma SolarTableFacts()
    ensures |SolarTable()| == 9
    ensures forall i :: 0 <= i < 9 ==> SolarTable()[i].rotation == 1.0
    ensures forall i :: 0 <= i < 9 ==> (SolarTable()[i].speed == 0.0 <==> i == 0)
    ensures forall i :: 0 <= i < 9 ==> (SolarTable()[i].size == 1.0 <==> i == 3)
    ensures forall i :: 0 <= i < 9 ==>
      SolarTable()[i].distance == [0.0, 8.0, 9.0, 10.0, 11.0, 15.0, 18.0, 14.0, 15.0][i]
    ensures SolarTable()[6].distance > SolarTable()[7].distance
    ensures forall i :: 0 <= i < 9 ==>
      SolarTable()[i].name == ["Sun", "Mercury", "venus", "earth", "mars", "jupiter", "saturn", "uranus", "neptun"][i]
  {
  }

  // ---------------------------------------------------------------------
  // The GL call log
  // ---------------------------------------------------------------------

  datatype GlCall =
    | DrawBody(program: int, body: Planet)        // glDrawElements of the sphere for a body
    | DrawMoon(program: int, host: Planet)        // glDrawElements of the sphere for the host's moon
    | DrawStars(program: int, count: int)         // glDrawArrays(GL_POINTS, 0, count)
    | DeleteProgram(handle: int)                  // glDeleteProgram
    | QueryLocations                              // uniform locations re-queried
    | UploadView(steps: int)                      // view matrix uploaded to PlanetProgram and StarsProgram
    | UploadProjection                            // projection matrix uploaded to PlanetProgram and StarsProgram
    | SetProjection(width: int, height: int, widened: bool)  // a new projection for a framebuffer size

  /** The moon rule: a moon is drawn for a body of size exactly 1.0. */
  predicate HasMoon(pl: Planet)
  {
    pl.size == 1.0
  }

  /** The draws `upload_planet_transforms` issues for one body. */
  function BodyDraws(program: int, pl: Planet): seq<GlCall>
  {
    [DrawBody(program, pl)] + if HasMoon(pl) then [DrawMoon(program, pl)] else []
  }

  /** The draws of one pass over a list of bodies, in list order. */
  function PlanetPass(program: int, ps: seq<Planet>): seq<GlCall>
    decreases |ps|
  {
    if ps == [] then [] else PlanetPass(program, ps[..|ps| - 1]) + BodyDraws(program, ps[|ps| - 1])
  }

  function MoonCount(ps: seq<Planet>): nat
    decreases |ps|
  {
    if ps == [] then 0 else MoonCount(ps[..|ps| - 1]) + if HasMoon(ps[|ps| - 1]) then 1 else 0
  }

  /** The bodies of the DrawBody entries of a log, in log order. */
  function BodiesDrawn(log: seq<GlCall>): seq<Planet>
    decreases |log|
  {
    if log == [] then []
    else BodiesDrawn(log[..|log| - 1]) + if log[|log| - 1].DrawBody? then [log[|log| - 1].body] else []
  }

  lemma {:induction false} BodiesDrawnAppend(a: seq<GlCall>, b: seq<GlCall>)
    ensures BodiesDrawn(a + b) == BodiesDrawn(a) + BodiesDrawn(b)
    decreases |b|
  {
    if b == [] {
      assert a + b == a;
    } else {
      var b' := b[..|b| - 1];
      assert (a + b)[..|a + b| - 1] == a + b';
      BodiesDrawnAppend(a, b');
    }
  }

  /** The draws for one body draw that body and no other. */
  lemma BodyDrawsBody(program: int, pl: Planet)
    ensures BodiesDrawn(BodyDraws(program, pl)) == [pl]
  {
    var body := [DrawBody(program, pl)];
    assert body[..0] == [];
    assert BodiesDrawn(body) == [pl];
    if HasMoon(pl) {
      var draws := body + [DrawMoon(program, pl)];
      assert draws[..1] == body;
      assert BodiesDrawn(draws) == BodiesDrawn(body);
    } else {
      assert BodyDraws(program, pl) == body;
    }
  }

  /** A pass draws every body once, in list order. */
  lemma {:induction false} PassDrawsBodiesInOrder(program: int, ps: seq<Planet>)
    ensures BodiesDrawn(PlanetPass(program, ps)) == ps
    decreases |ps|
  {
    if ps != [] {
      var front, pl := ps[..|ps| - 1], ps[|ps| - 1];
      calc {
        BodiesDrawn(PlanetPass(program, ps));
        BodiesDrawn(PlanetPass(program, front) + BodyDraws(program, pl));
        { BodiesDrawnAppend(PlanetPass(program, front), BodyDraws(program, pl)); }
        BodiesDrawn(PlanetPass(program, front)) + BodiesDrawn(BodyDraws(program, pl));
        { PassDrawsBodiesInOrder(program, front); BodyDrawsBody(program, pl); }
        front + [pl];
        { assert ps == front + [pl]; }
        ps;
      }
    }
  }

  /** A pass issues one draw per body and one more per body with a moon. */
  lemma {:induction false} PassLength(program: int, ps: seq<Planet>)
    ensures |PlanetPass(program, ps)| == |ps| + MoonCount(ps)
    decreases |ps|
  {
    if ps != [] {
      PassLength(program, ps[..|ps| - 1]);
    }
  }

  /** Every moon draw follows, immediately, the draw of a body that has a moon,
      and that body is its host. */
  lemma {:induction false} MoonFollowsHost(program: int, ps: seq<Planet>)
    ensures forall j :: 0 <= j < |PlanetPass(program, ps)| && PlanetPass(program, ps)[j].DrawMoon? ==>
      0 < j && HasMoon(PlanetPass(program, ps)[j].host)
      && PlanetPass(program, ps)[j - 1] == DrawBody(program, PlanetPass(program, ps)[j].host)
    decreases |ps|
  {
    if ps != [] {
      var front := PlanetPass(program, ps[..|ps| - 1]);
      var last := BodyDraws(program, ps[|ps| - 1]);
      MoonFollowsHost(program, ps[..|ps| - 1]);
      var p := PlanetPass(program, ps);
      assert p == front + last;
      forall j | 0 <= j < |p| && p[j].DrawMoon?
        ensures 0 < j && HasMoon(p[j].host) && p[j - 1] == DrawBody(program, p[j].host)
      {
        if j < |front| {
          assert p[j] == front[j] && p[j - 1] == front[j - 1];
        } else {
          assert p[j] == last[j - |front|];
          assert j - |front| == 1;
        }
      }
    }
  }

  /** A moon is drawn for a body exactly when the body is in the list and has size 1.0. */
  lemma {:induction false} MoonDrawnIff(program: int, ps: seq<Planet>, pl: Planet)
    ensures DrawMoon(program, pl) in PlanetPass(program, ps) <==> pl in ps && HasMoon(pl)
    decreases |ps|
  {
    if ps != [] {
      var front := ps[..|ps| - 1];
      MoonDrawnIff(program, front, pl);
      assert ps == front + [ps[|ps| - 1]];
      assert PlanetPass(program, ps) == PlanetPass(program, front) + BodyDraws(program, ps[|ps| - 1]);
    }
  }

  lemma PassSnoc(program: int, ps: seq<Planet>, pl: Planet)
    ensures PlanetPass(program, ps + [pl]) == PlanetPass(program, ps) + BodyDraws(program, pl)
  {
    assert (ps + [pl])[..|ps|] == ps;
  }

  /** A pass over nine bodies of which only the fourth has a moon: the nine body draws in order,
      with the moon's draw right after the fourth. */
  lemma NineBodyPass(program: int, t: seq<Planet>)
    requires |t| == 9 && forall i :: 0 <= i < 9 ==> (HasMoon(t[i]) <==> i == 3)
    ensures PlanetPass(program, t)
         == [DrawBody(program, t[0]), DrawBody(program, t[1]), DrawBody(program, t[2]),
             DrawBody(program, t[3]), DrawMoon(program, t[3]),
             DrawBody(program, t[4]), DrawBody(program, t[5]), DrawBody(program, t[6]),
             DrawBody(program, t[7]), DrawBody(program, t[8])]
  {
    assert t == [t[0]] + [t[1]] + [t[2]] + [t[3]] + [t[4]] + [t[5]] + [t[6]] + [t[7]] + [t[8]];
    PassSnoc(program, [], t[0]);
    assert [] + [t[0]] == [t[0]];
    PassSnoc(program, [t[0]], t[1]);
    PassSnoc(program, [t[0]] + [t[1]], t[2]);
    PassSnoc(program, [t[0]] + [t[1]] + [t[2]], t[3]);
    PassSnoc(program, [t[0]] + [t[1]] + [t[2]] + [t[3]], t[4]);
    PassSnoc(program, [t[0]] + [t[1]] + [t[2]] + [t[3]] + [t[4]], t[5]);
    PassSnoc(program, [t[0]] + [t[1]] + [t[2]] + [t[3]] + [t[4]] + [t[5]], t[6]);
    PassSnoc(program, [t[0]] + [t[1]] + [t[2]] + [t[3]] + [t[4]] + [t[5]] + [t[6]], t[7]);
    PassSnoc(program, [t[0]] + [t[1]] + [t[2]] + [t[3]] + [t[4]] + [t[5]] + [t[6]] + [t[7]], t[8]);
  }

  /** The table's pass: ten draws, earth's own draw at index 3 and its moon right after. */
  lemma SolarPass(program: int)
    ensures |PlanetPass(program, SolarTable())| == 10
    ensures PlanetPass(program, SolarTable())[3] == DrawBody(program, SolarTable()[3])
    ensures PlanetPass(program, SolarTable())[4] == DrawMoon(program, SolarTable()[3])
    ensures forall j :: 0 <= j < 10 && j != 4 ==> PlanetPass(program, SolarTable())[j].DrawBody?
  {
    SolarTableFacts();
    NineBodyPass(program, SolarTable());
  }

  // ---------------------------------------------------------------------
  // The star buffer
  // ---------------------------------------------------------------------

  /** `number_of_stars = rand() mod 50`. */
  const StarCountModulus: nat := 50
  /** Each coordinate is `rand() mod 25`. */
  const StarCoordinateModulus: nat := 25

  /** `number_of_stars`: call 0 of the random source, modulo 50. */
  function StarCount(rand: nat -> nat): (r: nat)
    ensures r < 50
  {
    rand(0) % StarCountModulus
  }

  /** A coordinate taken from call `k` of the random source: `rand() mod 25` as a float. */
  function Coordinate(rand: nat -> nat, k: nat): real
  {
    (rand(k) % StarCoordinateModulus) as real
  }

  /** The six floats of star `i`: three coordinates from the calls 1 + 3i, 2 + 3i and
      3 + 3i of the random source (call 0 chose the count), then the colour white. */
  function StarRecord(rand: nat -> nat, i: nat): seq<real>
  {
    [Coordinate(rand, 1 + 3 * i), Coordinate(rand, 2 + 3 * i), Coordinate(rand, 3 + 3 * i), 1.0, 1.0, 1.0]
  }

  function StarBuffer(rand: nat -> nat, n: nat): seq<real>
  {
    if n == 0 then [] else StarBuffer(rand, n - 1) + StarRecord(rand, n - 1)
  }

  /** One more star appends, one float at a time, its three coordinates and the colour white. */
  lemma StarBufferSnoc(rand: nat -> nat, i: nat, next: nat)
    requires next == 1 + 3 * i
    ensures StarBuffer(rand, i + 1)
         == StarBuffer(rand, i) + [Coordinate(rand, next)] + [Coordinate(rand, next + 1)] + [Coordinate(rand, next + 2)]
            + [1.0] + [1.0] + [1.0]
  {
    var s := StarBuffer(rand, i);
    assert s + [Coordinate(rand, next)] + [Coordinate(rand, next + 1)] + [Coordinate(rand, next + 2)] + [1.0] + [1.0] + [1.0]
        == s + StarRecord(rand, i);
  }

  /** The layout of the buffer: 6 floats per star; in each group slots 0 to 2 are the
      coordinates, whole numbers in [0, 25), and slots 3 to 5 are 1.0. */
  lemma {:induction false} StarBufferLayout(rand: nat -> nat, n: nat)
    ensures |StarBuffer(rand, n)| == 6 * n
    ensures forall k :: 0 <= k < 6 * n && k % 6 < 3 ==>
      StarBuffer(rand, n)[k] == Coordinate(rand, 1 + 3 * (k / 6) + k % 6)
    ensures forall k :: 0 <= k < 6 * n && k % 6 >= 3 ==> StarBuffer(rand, n)[k] == 1.0
  {
    if n > 0 {
      StarBufferLayout(rand, n - 1);
      var b := StarBuffer(rand, n);
      var front := StarBuffer(rand, n - 1);
      var r := StarRecord(rand, n - 1);
      assert b == front + r;
      forall k | 6 * (n - 1) <= k < 6 * n
        ensures k / 6 == n - 1 && k % 6 == k - 6 * (n - 1) && b[k] == r[k - 6 * (n - 1)]
      {
        DivModSix(k, n - 1);
      }
    }
  }

  lemma DivModSix(k: int, q: nat)
    requires 6 * q <= k < 6 * q + 6
    ensures k / 6 == q && k % 6 == k - 6 * q
  {
  }

  /** Every coordinate is a whole number in [0, 25). */
  lemma StarCoordinatesInRange(rand: nat -> nat, n: nat)
    ensures forall k :: 0 <= k < |StarBuffer(rand, n)| && k % 6 < 3 ==>
      0.0 <= StarBuffer(rand, n)[k] < 25.0 && StarBuffer(rand, n)[k] == StarBuffer(rand, n)[k].Floor as real
  {
    StarBufferLayout(rand, n);
  }

  /** The loop of `initializeStars`: `count` stars, each three coordinates from the next three
      calls of the random source, then the colour white, pushed one float at a time. */
  method GenerateStars(rand: nat -> nat, count: nat) returns (stars: seq<real>)
    ensures stars == StarBuffer(rand, count)
  {
    stars := [];
    var next := 1;  // index of the next random value; call 0 chose the count
    var i := 0;
    while i < count
      invariant 0 <= i <= count
      invariant next == 1 + 3 * i
      invariant stars == StarBuffer(rand, i)
    {
      var x := Coordinate(rand, next);
      var y := Coordinate(rand, next + 1);
      var z := Coordinate(rand, next + 2);
      StarBufferSnoc(rand, i, next);
      next := next + 3;
      stars := stars + [x];
      stars := stars + [y];
      stars := stars + [z];
      stars := stars + [1.0];
      stars := stars + [1.0];
      stars := stars + [1.0];
      i := i + 1;
    }
  }

  // ---------------------------------------------------------------------
  // Shader programs
  // ---------------------------------------------------------------------

  /** The keys of `m_shaders`: the source registers its programs under the strings "planet" and
      "stars", and no other name is ever used, so the model enumerates them. */
  datatype ProgramName = PlanetProgram | StarsProgram

  /** The keys of a program's `u_locs`, likewise the only uniform names the source requests. */
  datatype Uniform = NormalMatrix | ModelMatrix | ViewMatrix | ProjectionMatrix

  /** `shader_program`: its source files, the GL handle and the uniform locations by name. */
  datatype ShaderProgram = ShaderProgram(vertexPath: string, fragmentPath: string, handle: int, locations: map<Uniform, int>)

  /** The handle of a program that has not been compiled yet. */
  const UnsetHandle: int := 0
  /** The location recorded for a requested uniform before it is queried. */
  const UnknownLocation: int := -1

  /** The uniforms each program asks for, in the order the source requests them. */
  const PlanetUniforms: seq<Uniform> := [NormalMatrix, ModelMatrix, ViewMatrix, ProjectionMatrix]
  const StarUniforms: seq<Uniform> := [ViewMatrix, ProjectionMatrix]

  /** `u_locs[u] = -1` for each requested uniform in turn. */
  function RequestAll(locations: map<Uniform, int>, uniforms: seq<Uniform>): map<Uniform, int>
    decreases |uniforms|
  {
    if uniforms == [] then locations
    else RequestAll(locations, uniforms[..|uniforms| - 1])[uniforms[|uniforms| - 1] := UnknownLocation]
  }

  /** The requests add exactly the requested names, each at -1, and keep every other location. */
  lemma {:induction false} RequestAllSpec(locations: map<Uniform, int>, uniforms: seq<Uniform>)
    ensures RequestAll(locations, uniforms).Keys == locations.Keys + (set u | u in uniforms)
    ensures forall u :: u in uniforms ==> RequestAll(locations, uniforms)[u] == UnknownLocation
    ensures forall u :: u in locations && u !in uniforms ==> RequestAll(locations, uniforms)[u] == locations[u]
    decreases |uniforms|
  {
    if uniforms != [] {
      var front := uniforms[..|uniforms| - 1];
      RequestAllSpec(locations, front);
      assert uniforms == front + [uniforms[|uniforms| - 1]];
      assert (set u | u in uniforms) == (set u | u in front) + {uniforms[|uniforms| - 1]};
    }
  }

  /** The four requests of PlanetProgram, and the two of StarsProgram, one after another. */
  lemma RequestsInOrder(locations: map<Uniform, int>)
    ensures RequestAll(locations, PlanetUniforms)
         == locations[NormalMatrix := UnknownLocation][ModelMatrix := UnknownLocation][ViewMatrix := UnknownLocation][ProjectionMatrix := UnknownLocation]
    ensures RequestAll(locations, StarUniforms)
         == locations[ViewMatrix := UnknownLocation][ProjectionMatrix := UnknownLocation]
  {
    assert [NormalMatrix][..0] == [];
    assert RequestAll(locations, [NormalMatrix]) == locations[NormalMatrix := UnknownLocation];
    assert [NormalMatrix, ModelMatrix][..1] == [NormalMatrix];
    assert [NormalMatrix, ModelMatrix, ViewMatrix][..2] == [NormalMatrix, ModelMatrix];
    assert PlanetUniforms[..3] == [NormalMatrix, ModelMatrix, ViewMatrix];
    assert [ViewMatrix][..0] == [];
    assert StarUniforms[..1] == [ViewMatrix];
  }

  /** `emplace(name, shader_program{vertex, fragment})`: a new program without a handle, unless
      the name is registered already, in which case nothing changes. */
  function Emplaced(m: map<ProgramName, ShaderProgram>, name: ProgramName, vertex: string, fragment: string): map<ProgramName, ShaderProgram>
  {
    if name in m then m else m[name := ShaderProgram(vertex, fragment, UnsetHandle, map[])]
  }

  /** `at(name).u_locs[uniform] = -1`. */
  function Requested(m: map<ProgramName, ShaderProgram>, name: ProgramName, uniform: Uniform): map<ProgramName, ShaderProgram>
    requires name in m
  {
    m[name := m[name].(locations := m[name].locations[uniform := UnknownLocation])]
  }

  /** A program registered with its uniform requests. */
  function Register(m: map<ProgramName, ShaderProgram>, name: ProgramName, vertex: string, fragment: string, uniforms: seq<Uniform>): map<ProgramName, ShaderProgram>
  {
    var e := Emplaced(m, name, vertex, fragment);
    e[name := e[name].(locations := RequestAll(e[name].locations, uniforms))]
  }

  lemma RequestAllSnoc(locations: map<Uniform, int>, uniforms: seq<Uniform>, u: Uniform)
    ensures RequestAll(locations, uniforms + [u]) == RequestAll(locations, uniforms)[u := UnknownLocation]
  {
    assert (uniforms + [u])[..|uniforms|] == uniforms;
  }

  /** Registration is the emplace followed by one request per uniform, in order. */
  lemma RegisterSnoc(m: map<ProgramName, ShaderProgram>, name: ProgramName, vertex: string, fragment: string, uniforms: seq<Uniform>, u: Uniform)
    ensures name in Register(m, name, vertex, fragment, uniforms)
    ensures Register(m, name, vertex, fragment, uniforms + [u])
         == Requested(Register(m, name, vertex, fragment, uniforms), name, u)
  {
    var e := Emplaced(m, name, vertex, fragment);
    RequestAllSnoc(e[name].locations, uniforms, u);
  }

  lemma RegisterEmplaces(m: map<ProgramName, ShaderProgram>, name: ProgramName, vertex: string, fragment: string)
    ensures Register(m, name, vertex, fragment, []) == Emplaced(m, name, vertex, fragment)
  {
    var e := Emplaced(m, name, vertex, fragment);
    assert e[name].(locations := e[name].locations) == e[name];
  }

  /** Registering adds `name` if it is new (with the given files and no handle yet), keeps an
      existing program's files and handle, requests every uniform, and touches no other program. */
  lemma RegisterSpec(m: map<ProgramName, ShaderProgram>, name: ProgramName, vertex: string, fragment: string, uniforms: seq<Uniform>)
    ensures var r := Register(m, name, vertex, fragment, uniforms);
      && r.Keys == m.Keys + {name}
      && (forall u :: u in uniforms ==> u in r[name].locations && r[name].locations[u] == UnknownLocation)
      && (name !in m ==>
            && r[name].locations.Keys == (set u | u in uniforms)
            && r[name].vertexPath == vertex && r[name].fragmentPath == fragment && r[name].handle == UnsetHandle)
      && (name in m ==>
            && r[name].locations.Keys == m[name].locations.Keys + (set u | u in uniforms)
            && r[name].vertexPath == m[name].vertexPath && r[name].fragmentPath == m[name].fragmentPath
            && r[name].handle == m[name].handle)
      && (forall n :: n in m && n != name ==> r[n] == m[n])
  {
    var e := Emplaced(m, name, vertex, fragment);
    RequestAllSpec(e[name].locations, uniforms);
  }

  /** The registry `initializeShaderPrograms` builds on top of `m`. */
  function InitialShaders(m: map<ProgramName, ShaderProgram>, resourcePath: string): map<ProgramName, ShaderProgram>
  {
    var planet := Register(m, PlanetProgram, resourcePath + "shaders/simple.vert", resourcePath + "shaders/simple.frag", PlanetUniforms);
    Register(planet, StarsProgram, resourcePath + "shaders/stars.vert", resourcePath + "shaders/stars.frag", StarUniforms)
  }

  /** The registry after `initializeShaderPrograms`'s statements, one emplace or request at a time. */
  function ShaderSetup(m: map<ProgramName, ShaderProgram>, resourcePath: string): map<ProgramName, ShaderProgram>
  {
    var planet := Emplaced(m, PlanetProgram, resourcePath + "shaders/simple.vert", resourcePath + "shaders/simple.frag");
    var planet := Requested(Requested(Requested(Requested(planet, PlanetProgram, NormalMatrix),
                    PlanetProgram, ModelMatrix), PlanetProgram, ViewMatrix), PlanetProgram, ProjectionMatrix);
    var stars := Emplaced(planet, StarsProgram, resourcePath + "shaders/stars.vert", resourcePath + "shaders/stars.frag");
    Requested(Requested(stars, StarsProgram, ViewMatrix), StarsProgram, ProjectionMatrix)
  }

  /** The statements register PlanetProgram with its four uniforms, then StarsProgram with its two. */
  lemma ShaderSetupRegisters(m: map<ProgramName, ShaderProgram>, resourcePath: string)
    ensures ShaderSetup(m, resourcePath) == InitialShaders(m, resourcePath)
  {
    var vertex, fragment := resourcePath + "shaders/simple.vert", resourcePath + "shaders/simple.frag";
    RegisterEmplaces(m, PlanetProgram, vertex, fragment);
    RegisterSnoc(m, PlanetProgram, vertex, fragment, [], NormalMatrix);
    RegisterSnoc(m, PlanetProgram, vertex, fragment, [NormalMatrix], ModelMatrix);
    RegisterSnoc(m, PlanetProgram, vertex, fragment, [NormalMatrix, ModelMatrix], ViewMatrix);
    RegisterSnoc(m, PlanetProgram, vertex, fragment, [NormalMatrix, ModelMatrix, ViewMatrix], ProjectionMatrix);
    assert [] + [NormalMatrix] == [NormalMatrix];
    assert [NormalMatrix] + [ModelMatrix] == [NormalMatrix, ModelMatrix];
    assert [NormalMatrix, ModelMatrix] + [ViewMatrix] == [NormalMatrix, ModelMatrix, ViewMatrix];
    assert [NormalMatrix, ModelMatrix, ViewMatrix] + [ProjectionMatrix] == PlanetUniforms;
    var planet := Register(m, PlanetProgram, vertex, fragment, PlanetUniforms);
    vertex, fragment := resourcePath + "shaders/stars.vert", resourcePath + "shaders/stars.frag";
    RegisterEmplaces(planet, StarsProgram, vertex, fragment);
    RegisterSnoc(planet, StarsProgram, vertex, fragment, [], ViewMatrix);
    RegisterSnoc(planet, StarsProgram, vertex, fragment, [ViewMatrix], ProjectionMatrix);
    assert [] + [ViewMatrix] == [ViewMatrix];
    assert [ViewMatrix] + [ProjectionMatrix] == StarUniforms;
  }

  /** From an empty registry: exactly PlanetProgram and StarsProgram, each with its two source files
      under the resource path, no handle yet, and exactly the four and the two uniform names at -1. */
  lemma InitialShadersExact(resourcePath: string)
    ensures InitialShaders(map[], resourcePath)
         == map[PlanetProgram := ShaderProgram(resourcePath + "shaders/simple.vert", resourcePath + "shaders/simple.frag", UnsetHandle,
                                                map[NormalMatrix := -1, ModelMatrix := -1, ViewMatrix := -1, ProjectionMatrix := -1]),
                StarsProgram := ShaderProgram(resourcePath + "shaders/stars.vert", resourcePath + "shaders/stars.frag", UnsetHandle,
                                               map[ViewMatrix := -1, ProjectionMatrix := -1])]
  {
    var empty: map<Uniform, int> := map[];
    RequestsInOrder(empty);
    var planet := ShaderProgram(resourcePath + "shaders/simple.vert", resourcePath + "shaders/simple.frag",
                                UnsetHandle, RequestAll(empty, PlanetUniforms));
    var stars := ShaderProgram(resourcePath + "shaders/stars.vert", resourcePath + "shaders/stars.frag",
                               UnsetHandle, RequestAll(empty, StarUniforms));
    var one := Register(map[], PlanetProgram, resourcePath + "shaders/simple.vert", resourcePath + "shaders/simple.frag", PlanetUniforms);
    assert one == map[PlanetProgram := planet];
    assert StarsProgram !in one;
    assert InitialShaders(map[], resourcePath) == map[PlanetProgram := planet, StarsProgram := stars];
  }

  /** The order in which iterating `m_shaders` visits the programs: a `std::map` goes through its
      keys in ascending order, and "planet" sorts before "stars". */
  function Visiting(m: map<ProgramName, ShaderProgram>): (r: seq<ProgramName>)
    ensures forall n :: n in m <==> n in r
    ensures forall i, j :: 0 <= i < j < |r| ==> r[i] == PlanetProgram && r[j] == StarsProgram
  {
    var r := (if PlanetProgram in m then [PlanetProgram] else []) + (if StarsProgram in m then [StarsProgram] else []);
    assert forall n :: n in r <==> (n == PlanetProgram && n in m) || (n == StarsProgram && n in m);
    r
  }

  /** The registry every draw relies on: both programs present with the uniforms they upload. */
  ghost predicate ShadersReady(m: map<ProgramName, ShaderProgram>)
  {
    && PlanetProgram in m && (forall u :: u in PlanetUniforms ==> u in m[PlanetProgram].locations)
    && StarsProgram in m && (forall u :: u in StarUniforms ==> u in m[StarsProgram].locations)
  }

  /** Whatever was registered before, the registration leaves both programs present with every
      uniform they upload requested. */
  lemma SetupReady(m: map<ProgramName, ShaderProgram>, resourcePath: string)
    ensures ShadersReady(ShaderSetup(m, resourcePath))
  {
  }

  // ---------------------------------------------------------------------
  // The dolly
  // ---------------------------------------------------------------------

  /** The change `keyCallback` makes to the view, in steps of 0.1 along the local z axis:
      W moves forward (-z), S back (+z), anything else not at all. */
  function DollyStep(key: int, action: int): int
  {
    if key == KeyW && action == Press then -1
    else if key == KeyS && action == Press then 1
    else 0
  }

  /** The local z translation of the view after `steps` steps. */
  function ViewOffset(steps: int): real
  {
    steps as real * 0.1
  }

  /** W then S (or S then W) brings the view back to where it was; W moves it by -0.1 along z. */
  lemma DollyInverse(steps: int)
    ensures steps + DollyStep(KeyW, Press) + DollyStep(KeyS, Press) == steps
    ensures ViewOffset(steps + DollyStep(KeyW, Press)) == ViewOffset(steps) - 0.1
    ensures ViewOffset(steps + DollyStep(KeyS, Press)) == ViewOffset(steps) + 0.1
  {
  }

  /** Any other key or action leaves the view as it is. */
  lemma DollyOnlyOnPress(key: int, action: int)
    ensures DollyStep(key, action) != 0 <==> action == Press && (key == KeyW || key == KeyS)
  {
  }

  // ---------------------------------------------------------------------
  // The application object
  // ---------------------------------------------------------------------

  /** `ApplicationSolar`, together with the file's globals `planets` and `number_of_stars`. */
  class ApplicationSolar {
    var resourcePath: string
    /** The global `planets` list. */
    var planets: seq<Planet>
    /** The global `number_of_stars`. */
    var numberOfStars: int
    /** The floats uploaded to the star vertex buffer. */
    var starBuffer: seq<real>
    /** The view transform, as a count of 0.1 steps along the local z axis. */
    var viewSteps: int
    /** `m_shaders`. */
    var shaders: map<ProgramName, ShaderProgram>
    /** The GL calls issued so far. */
    var log: seq<GlCall>

    ghost predicate Valid()
      reads this
    {
      ShadersReady(shaders)
    }

    /** The constructor: stars, then planets, then the shader programs. */
    constructor (resourcePath: string, rand: nat -> nat)
      ensures Valid()
      ensures this.resourcePath == resourcePath
      ensures numberOfStars == StarCount(rand)
      ensures starBuffer == StarBuffer(rand, numberOfStars)
      ensures planets == SolarTable()
      ensures shaders == ShaderSetup(map[], resourcePath)
      ensures viewSteps == 0 && log == []
    {
      this.resourcePath := resourcePath;
      planets, numberOfStars, starBuffer := [], 0, [];
      viewSteps, shaders, log := 0, map[], [];
      new;
      InitializeStars(rand);
      InitializePlanets();
      InitFromEmpty();
      InitializeShaderPrograms();
    }

    /** `initializePlanets`: push nine default entries, then assign the table to indices 0 to 8. */
    method InitializePlanets()
      modifies this`planets
      ensures planets == PlanetsAfterInit(old(planets))
    {
      PushDefaults();
      AssignTable();
    }

    /** The nine `push_back(planet{})` calls. */
    method PushDefaults()
      modifies this`planets
      ensures planets == old(planets) + Defaults(9)
    {
      planets := planets + [DefaultPlanet];
      planets := planets + [DefaultPlanet];
      planets := planets + [DefaultPlanet];
      planets := planets + [DefaultPlanet];
      planets := planets + [DefaultPlanet];
      planets := planets + [DefaultPlanet];
      planets := planets + [DefaultPlanet];
      planets := planets + [DefaultPlanet];
      planets := planets + [DefaultPlanet];
    }

    /** The field assignments of entries 0 to 8; every field is written, so each entry becomes the table's. */
    method AssignTable()
      requires |planets| >= 9
      modifies this`planets
      ensures planets == SolarTable() + old(planets)[9..]
    {
      planets := planets[0 := planets[0].(distance := 0.0, size := 7.0, speed := 0.0, rotation := 1.0, name := "Sun")];
      planets := planets[1 := planets[1].(distance := 8.0, size := EarthSize * 0.7, speed := 2.5, rotation := 1.0, name := "Mercury")];
      planets := planets[2 := planets[2].(distance := 9.0, size := EarthSize * 0.9, speed := 2.0, rotation := 1.0, name := "venus")];
      planets := planets[3 := planets[3].(distance := 10.0, size := EarthSize, speed := 1.2, rotation := 1.0, name := "earth")];
      planets := planets[4 := planets[4].(distance := 11.0, size := EarthSize * 0.5, speed := 1.0, rotation := 1.0, name := "mars")];
      planets := planets[5 := planets[5].(distance := 15.0, size := EarthSize * 1.4, speed := 0.8, rotation := 1.0, name := "jupiter")];
      planets := planets[6 := planets[6].(distance := 18.0, size := EarthSize * 1.3, speed := 0.7, rotation := 1.0, name := "saturn")];
      planets := planets[7 := planets[7].(distance := 14.0, size := EarthSize * 3.0, speed := 0.5, rotation := 1.0, name := "uranus")];
      planets := planets[8 := planets[8].(distance := 15.0, size := EarthSize * 1.1, speed := 0.4, rotation := 1.0, name := "neptun")];
      assert planets[..9] == SolarTable();
      assert planets == planets[..9] + planets[9..];
    }

    /** `initializeStars`: the star count from the first random value, then six floats per star. */
    method InitializeStars(rand: nat -> nat)
      modifies this`numberOfStars, this`starBuffer
      ensures numberOfStars == StarCount(rand)
      ensures starBuffer == StarBuffer(rand, numberOfStars)
    {
      numberOfStars := StarCount(rand);
      starBuffer := GenerateStars(rand, numberOfStars);
    }

    /** `initializeShaderPrograms`: register PlanetProgram and StarsProgram and request their uniforms. */
    method InitializeShaderPrograms()
      modifies this`shaders
      ensures ShadersReady(shaders)
      ensures shaders == ShaderSetup(old(shaders), resourcePath)
    {
      Emplace(PlanetProgram, resourcePath + "shaders/simple.vert", resourcePath + "shaders/simple.frag");
      RequestLocation(PlanetProgram, NormalMatrix);
      RequestLocation(PlanetProgram, ModelMatrix);
      RequestLocation(PlanetProgram, ViewMatrix);
      RequestLocation(PlanetProgram, ProjectionMatrix);
      Emplace(StarsProgram, resourcePath + "shaders/stars.vert", resourcePath + "shaders/stars.frag");
      RequestLocation(StarsProgram, ViewMatrix);
      RequestLocation(StarsProgram, ProjectionMatrix);
      assert shaders == ShaderSetup(old(shaders), resourcePath);
      SetupReady(old(shaders), resourcePath);
    }

    /** `m_shaders.emplace(name, ...)`: adds a program only when the name is not registered yet. */
    method Emplace(name: ProgramName, vertex: string, fragment: string)
      modifies this`shaders
      ensures shaders == Emplaced(old(shaders), name, vertex, fragment)
    {
      if name !in shaders {
        shaders := shaders[name := ShaderProgram(vertex, fragment, UnsetHandle, map[])];
      }
    }

    /** `m_shaders.at(name).u_locs[uniform] = -1`. */
    method RequestLocation(name: ProgramName, uniform: Uniform)
      requires name in shaders
      modifies this`shaders
      ensures shaders == Requested(old(shaders), name, uniform)
    {
      var p := shaders[name];
      shaders := shaders[name := p.(locations := p.locations[uniform := UnknownLocation])];
    }

    /** `upload_planet_transforms`: draw the body with the PlanetProgram program, and its moon when it has one. */
    method UploadPlanetTransforms(pl: Planet)
      requires Valid()
      modifies this`log
      ensures log == old(log) + BodyDraws(shaders[PlanetProgram].handle, pl)
    {
      var program := shaders[PlanetProgram].handle;
      log := log + [DrawBody(program, pl)];
      if pl.size == 1.0 {
        log := log + [DrawMoon(program, pl)];
      }
    }

    /** `renderPlanets`: one `upload_planet_transforms` per entry of the list, in order. */
    method RenderPlanets()
      requires Valid()
      modifies this`log
      ensures log == old(log) + PlanetPass(shaders[PlanetProgram].handle, planets)
    {
      var i := 0;
      while i < |planets|
        invariant 0 <= i <= |planets|
        invariant log == old(log) + PlanetPass(shaders[PlanetProgram].handle, planets[..i])
      {
        assert planets[..i + 1][..i] == planets[..i];
        UploadPlanetTransforms(planets[i]);
        i := i + 1;
      }
      assert planets[..i] == planets;
    }

    /** `renderStars`: one point draw of `number_of_stars` vertices with the StarsProgram program. */
    method RenderStars()
      requires Valid()
      modifies this`log
      ensures log == old(log) + [DrawStars(shaders[StarsProgram].handle, numberOfStars)]
    {
      log := log + [DrawStars(shaders[StarsProgram].handle, numberOfStars)];
    }

    /** `render`: stars first, then the planets. */
    method Render()
      requires Valid()
      modifies this`log
      ensures log == old(log) + [DrawStars(shaders[StarsProgram].handle, numberOfStars)]
                              + PlanetPass(shaders[PlanetProgram].handle, planets)
    {
      RenderStars();
      RenderPlanets();
    }

    /** `updateView`: upload the inverse of the view transform to both programs. */
    method UpdateView()
      requires Valid()
      modifies this`log
      ensures log == old(log) + [UploadView(viewSteps)]
    {
      log := log + [UploadView(viewSteps)];
    }

    /** `uploadUniforms`: re-query the uniform locations, then upload view and projection. */
    method UploadUniforms()
      requires Valid()
      modifies this`log
      ensures log == old(log) + [QueryLocations, UploadView(viewSteps), UploadProjection]
    {
      log := log + [QueryLocations];
      UpdateView();
      log := log + [UploadProjection];
    }

    /** `setProjection`, as the launcher calls it after a resize or a reload. */
    method SetProjectionFor(width: int, height: int, widened: bool)
      modifies this`log
      ensures log == old(log) + [SetProjection(width, height, widened)]
    {
      log := log + [SetProjection(width, height, widened)];
    }

    /** `keyCallback`: W or S pressed move the view one step and upload it; nothing else happens otherwise. */
    method KeyCallback(key: int, action: int)
      requires Valid()
      modifies this`viewSteps, this`log
      ensures viewSteps == old(viewSteps) + DollyStep(key, action)
      ensures log == old(log) + if DollyStep(key, action) != 0 then [UploadView(viewSteps)] else []
    {
      if key == KeyW && action == Press {
        viewSteps := viewSteps - 1;
        UpdateView();
      } else if key == KeyS && action == Press {
        viewSteps := viewSteps + 1;
        UpdateView();
      }
    }
  }
}
