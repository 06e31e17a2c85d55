/** The plane-stacked copy: every layer stores its planes one after the other, each plane token by
    token. Spans of source pages are copied into a canonical page in place. */
module PlaneCopy {
  import opened CheckpointTypes
  import opened Coverage
  import opened Assembly
  import opened Division

  /** Elements per token in the planes before plane k. */
  function Preceding(widths: seq<nat>, k: nat): nat
    requires k <= |widths|
  {
    if k == 0 then 0 else Preceding(widths, k - 1) + widths[k - 1]
  }

  /** Where element j of token t of plane k lies in a buffer of so many tokens. */
  function At(tokens: nat, widths: seq<nat>, k: nat, t: nat, j: nat): nat
    requires k < |widths|
  {
    tokens * Preceding(widths, k) + t * widths[k] + j
  }

  /** One source page's share of a window: token offsets into both pages and a token count. */
  datatype Span = Span(valid: nat, source: nat, target: nat, count: nat)

  lemma {:induction false} PrecedingGrows(widths: seq<nat>, k: nat, m: nat)
    requires k <= m <= |widths|
    ensures Preceding(widths, k) <= Preceding(widths, m)
    decreases m
  {
    if k < m { PrecedingGrows(widths, k, m - 1); }
  }

  /** A plane's elements stay inside the plane. */
  lemma InPlane(tokens: nat, widths: seq<nat>, k: nat, t: nat, j: nat)
    requires k < |widths| && t < tokens && j < widths[k]
    ensures tokens * Preceding(widths, k) <= At(tokens, widths, k, t, j) < tokens * Preceding(widths, k + 1)
  {
    var w := widths[k];
    Scale(t + 1, tokens, w);
    assert (t + 1) * w == t * w + w;
    assert tokens * Preceding(widths, k + 1) == tokens * Preceding(widths, k) + tokens * w;
  }

  /** An element lies in a run of tokens of its own plane exactly when its token does. */
  lemma InRun(tokens: nat, widths: seq<nat>, k: nat, t: nat, j: nat, first: nat, count: nat)
    requires k < |widths| && j < widths[k]
    ensures tokens * Preceding(widths, k) + first * widths[k] <= At(tokens, widths, k, t, j)
              < tokens * Preceding(widths, k) + first * widths[k] + count * widths[k]
            <==> first <= t < first + count
  {
    var w := widths[k];
    assert (first + count) * w == first * w + count * w;
    if t < first { Scale(t + 1, first, w); assert (t + 1) * w == t * w + w; }
    if first <= t { Scale(first, t, w); }
    if t < first + count { Scale(t + 1, first + count, w); assert (t + 1) * w == t * w + w; }
    if first + count <= t { Scale(first + count, t, w); }
  }

  lemma Distribute(a: int, b: int, c: int)
    ensures (a + b) * c == a * c + b * c && c * (a + b) == c * a + c * b
  {
  }

  /** A run of tokens stays inside its plane. */
  lemma RunInPlane(tokens: nat, widths: seq<nat>, k: nat, first: nat, count: nat)
    requires k < |widths| && first + count <= tokens
    ensures tokens * Preceding(widths, k) + first * widths[k] + count * widths[k] <= tokens * Preceding(widths, k + 1)
  {
    var w, p := widths[k], Preceding(widths, k);
    Distribute(first, count, w);
    Scale(first + count, tokens, w);
    Distribute(p, w, tokens);
  }

  /** Elements of another plane never lie in a run of this plane. */
  lemma OutsidePlane(tokens: nat, widths: seq<nat>, k: nat, t: nat, j: nat, m: nat, first: nat, count: nat)
    requires k < |widths| && m < |widths| && k != m && t < tokens && j < widths[k]
    requires first + count <= tokens
    ensures var b := tokens * Preceding(widths, m) + first * widths[m];
      !(b <= At(tokens, widths, k, t, j) < b + count * widths[m])
  {
    hide Preceding, At;
    InPlane(tokens, widths, k, t, j);
    RunInPlane(tokens, widths, m, first, count);
    if k < m { LaterPlane(tokens, widths, k + 1, m); } else { LaterPlane(tokens, widths, m + 1, k); }
  }

  lemma LaterPlane(tokens: nat, widths: seq<nat>, k: nat, m: nat)
    requires k <= m <= |widths|
    ensures tokens * Preceding(widths, k) <= tokens * Preceding(widths, m)
  {
    PrecedingGrows(widths, k, m);
    Scale(Preceding(widths, k), Preceding(widths, m), tokens);
  }

  /** A layer buffer holds all planes of its tokens. */
  ghost predicate Fits<T>(data: seq<T>, tokens: nat, widths: seq<nat>) {
    |data| == tokens * Preceding(widths, |widths|)
  }

  lemma AtFits(tokens: nat, widths: seq<nat>, k: nat, t: nat, j: nat)
    requires k < |widths| && t < tokens && j < widths[k]
    ensures At(tokens, widths, k, t, j) < tokens * Preceding(widths, |widths|)
  {
    InPlane(tokens, widths, k, t, j);
    PrecedingGrows(widths, k + 1, |widths|);
    Scale(Preceding(widths, k + 1), Preceding(widths, |widths|), tokens);
  }

  lemma RunFits(tokens: nat, widths: seq<nat>, k: nat, first: nat, count: nat)
    requires k < |widths| && first + count <= tokens
    ensures tokens * Preceding(widths, k) + first * widths[k] + count * widths[k] <= tokens * Preceding(widths, |widths|)
  {
    RunInPlane(tokens, widths, k, first, count);
    LaterPlane(tokens, widths, k + 1, |widths|);
  }

  ghost predicate SpanOk(s: Span, tokens: nat) {
    s.source + s.count <= s.valid && s.target + s.count <= tokens
  }

  /** Plane k of one span has arrived: every token's elements equal the source's. */
  ghost predicate Arrived<T>(data: seq<T>, tokens: nat, widths: seq<nat>, k: nat, s: Span, src: seq<T>)
    requires k < |widths| && SpanOk(s, tokens)
    requires Fits(data, tokens, widths) && Fits(src, s.valid, widths)
  {
    forall t, j {:trigger At(tokens, widths, k, t, j)} :: s.target <= t < s.target + s.count && 0 <= j < widths[k] ==>
      && At(tokens, widths, k, t, j) < |data|
      && At(s.valid, widths, k, t - s.target + s.source, j) < |src|
      && data[At(tokens, widths, k, t, j)] == src[At(s.valid, widths, k, t - s.target + s.source, j)]
  }

  /** The data after copying plane k of span s. */
  ghost predicate Copied<T>(was: seq<T>, now: seq<T>, b: nat, src: seq<T>, a: nat, n: nat) {
    && |now| == |was| && b + n <= |now| && a + n <= |src|
    && (forall x :: 0 <= x < |now| ==> now[x] == if b <= x < b + n then src[a + x - b] else was[x])
  }

  lemma CopyArrives<T>(was: seq<T>, now: seq<T>, tokens: nat, widths: seq<nat>, k: nat, s: Span, src: seq<T>)
    requires k < |widths| && SpanOk(s, tokens)
    requires Fits(was, tokens, widths) && Fits(src, s.valid, widths)
    requires Copied(was, now, tokens * Preceding(widths, k) + s.target * widths[k], src,
                    s.valid * Preceding(widths, k) + s.source * widths[k], s.count * widths[k])
    ensures Arrived(now, tokens, widths, k, s, src)
  {
    forall t, j | s.target <= t < s.target + s.count && 0 <= j < widths[k]
      ensures At(tokens, widths, k, t, j) < |now|
      ensures At(s.valid, widths, k, t - s.target + s.source, j) < |src|
      ensures now[At(tokens, widths, k, t, j)] == src[At(s.valid, widths, k, t - s.target + s.source, j)]
    {
      AtFits(tokens, widths, k, t, j);
      AtFits(s.valid, widths, k, t - s.target + s.source, j);
      InRun(tokens, widths, k, t, j, s.target, s.count);
      var w := widths[k];
      assert (t - s.target + s.source) * w == t * w - s.target * w + s.source * w;
    }
  }

  /** Copying one plane of one span leaves other planes and other spans alone. */
  lemma CopyKeeps<T>(was: seq<T>, now: seq<T>, tokens: nat, widths: seq<nat>, m: nat, s: Span, src: seq<T>,
                     k: nat, o: Span, osrc: seq<T>)
    requires k < |widths| && m < |widths| && SpanOk(s, tokens) && SpanOk(o, tokens)
    requires Fits(was, tokens, widths) && Fits(src, s.valid, widths) && Fits(osrc, o.valid, widths)
    requires Copied(was, now, tokens * Preceding(widths, m) + s.target * widths[m], src,
                    s.valid * Preceding(widths, m) + s.source * widths[m], s.count * widths[m])
    requires k != m || o.target + o.count <= s.target || s.target + s.count <= o.target
    requires Arrived(was, tokens, widths, k, o, osrc)
    ensures Arrived(now, tokens, widths, k, o, osrc)
  {
    forall t, j | o.target <= t < o.target + o.count && 0 <= j < widths[k]
      ensures now[At(tokens, widths, k, t, j)] == was[At(tokens, widths, k, t, j)]
    {
      AtFits(tokens, widths, k, t, j);
      if k == m {
        InRun(tokens, widths, k, t, j, s.target, s.count);
      } else {
        OutsidePlane(tokens, widths, k, t, j, m, s.target, s.count);
      }
    }
  }

  method CopyRun<T>(target: array<T>, b: nat, src: seq<T>, a: nat, n: nat)
    requires b + n <= target.Length && a + n <= |src|
    modifies target
    ensures Copied(old(target[..]), target[..], b, src, a, n)
  {
    for i := 0 to n
      invariant forall x :: 0 <= x < target.Length ==> target[x] == if b <= x < b + i then src[a + x - b] else old(target[x])
    {
      target[b + i] := src[a + i];
    }
  }

  /** The spans of a window follow each other in the target page. */
  ghost predicate Ordered(spans: seq<Span>, tokens: nat) {
    && (forall i :: 0 <= i < |spans| ==> SpanOk(spans[i], tokens))
    && (forall i, j :: 0 <= i < j < |spans| ==> spans[i].target + spans[i].count <= spans[j].target)
  }

  ghost predicate AllFit<T>(spans: seq<Span>, sources: seq<seq<T>>, widths: seq<nat>) {
    |sources| == |spans| && forall i :: 0 <= i < |spans| ==> Fits(sources[i], spans[i].valid, widths)
  }

  /** Spans before i have arrived in every plane, span i in the planes before k. */
  ghost predicate Progress<T>(data: seq<T>, tokens: nat, widths: seq<nat>, spans: seq<Span>, sources: seq<seq<T>>, i: nat, k: nat)
    requires Ordered(spans, tokens) && AllFit(spans, sources, widths) && Fits(data, tokens, widths)
  {
    forall x, p :: 0 <= x < |spans| && 0 <= p < |widths| && (x < i || (x == i && p < k)) ==>
      Arrived(data, tokens, widths, p, spans[x], sources[x])
  }

  /** One layer: span by span, plane by plane, in place. */
  method AssembleLayer<T>(target: array<T>, widths: seq<nat>, spans: seq<Span>, sources: seq<seq<T>>, tokens: nat)
    requires Ordered(spans, tokens) && AllFit(spans, sources, widths)
    requires Fits(target[..], tokens, widths)
    modifies target
    ensures Progress(target[..], tokens, widths, spans, sources, |spans|, 0)
  {
    for i := 0 to |spans|
      invariant Progress(target[..], tokens, widths, spans, sources, i, 0)
    {
      var s := spans[i];
      var preceding := 0;
      for k := 0 to |widths|
        invariant preceding == Preceding(widths, k)
        invariant Progress(target[..], tokens, widths, spans, sources, i, k)
      {
        var width := widths[k];
        var a := s.valid * preceding + s.source * width;
        var b := tokens * preceding + s.target * width;
        RunFits(tokens, widths, k, s.target, s.count);
        RunFits(s.valid, widths, k, s.source, s.count);
        ghost var was := target[..];
        CopyRun(target, b, sources[i], a, s.count * width);
        CopyArrives(was, target[..], tokens, widths, k, s, sources[i]);
        KeepProgress(was, target[..], tokens, widths, spans, sources, i, k);
        preceding := preceding + width;
      }
      assert Progress(target[..], tokens, widths, spans, sources, i + 1, 0);
    }
  }

  lemma KeepProgress<T>(was: seq<T>, now: seq<T>, tokens: nat, widths: seq<nat>, spans: seq<Span>, sources: seq<seq<T>>, i: nat, k: nat)
    requires Ordered(spans, tokens) && AllFit(spans, sources, widths) && Fits(was, tokens, widths)
    requires i < |spans| && k < |widths|
    requires Copied(was, now, tokens * Preceding(widths, k) + spans[i].target * widths[k], sources[i],
                    spans[i].valid * Preceding(widths, k) + spans[i].source * widths[k], spans[i].count * widths[k])
    requires Progress(was, tokens, widths, spans, sources, i, k)
    requires Arrived(now, tokens, widths, k, spans[i], sources[i])
    ensures Progress(now, tokens, widths, spans, sources, i, k + 1)
  {
    forall x, p | 0 <= x < |spans| && 0 <= p < |widths| && (x < i || (x == i && p < k))
      ensures Arrived(now, tokens, widths, p, spans[x], sources[x])
    {
      CopyKeeps(was, now, tokens, widths, k, spans[i], sources[i], p, spans[x], sources[x]);
    }
  }

  // ---------------------------------------------------------------- whole pages

  /** A source page: its window, its number of valid tokens and its layer buffers. */
  datatype Piece<T> = Piece(window: CheckpointPage, valid: nat, layers: seq<seq<T>>)

  /** Plane widths are shared by all layers or given layer by layer. */
  datatype Widths = Shared(widths: seq<nat>) | PerLayer(layers: seq<seq<nat>>)

  function LayerWidths(w: Widths, layer: nat): seq<nat>
    requires w.PerLayer? ==> layer < |w.layers|
  {
    match w case Shared(ws) => ws case PerLayer(ls) => ls[layer]
  }

  ghost predicate PieceOk<T>(p: Piece<T>, widths: Widths, layers: nat, start: int, end: int) {
    && Intersects(p.window, start, end)
    && p.window.end - p.window.start <= p.valid
    && |p.layers| == layers
    && (widths.PerLayer? ==> |widths.layers| == layers)
    && forall l :: 0 <= l < layers ==> Fits(p.layers[l], p.valid, LayerWidths(widths, l))
  }

  function PieceWindows<T>(pieces: seq<Piece<T>>): seq<CheckpointPage> {
    seq(|pieces|, i requires 0 <= i < |pieces| => pieces[i].window)
  }

  /** Element j of plane k at logical position t in a page that starts at a window's first position. */
  ghost predicate Holds<T>(data: seq<T>, tokens: nat, widths: seq<nat>, from: int, k: nat, t: int, j: nat, value: T)
    requires k < |widths|
  {
    t >= from && At(tokens, widths, k, t - from, j) < |data| && data[At(tokens, widths, k, t - from, j)] == value
  }

  /** A page agrees with a history of element values over a range of positions. */
  ghost predicate Agrees<T(!new)>(data: seq<T>, tokens: nat, widths: seq<nat>, from: int, a: int, b: int, history: (nat, int, nat) -> T) {
    forall k: nat, t, j: nat {:trigger history(k, t, j)} :: k < |widths| && a <= t < b && j < widths[k] ==>
      Holds(data, tokens, widths, from, k, t, j, history(k, t, j))
  }

  /** The coverage loop: spans in order, or a hole, overlap or incomplete tail. */
  method PlanSpans<T>(pieces: seq<Piece<T>>, start: int, end: int) returns (accepted: bool, spans: seq<Span>)
    requires start < end
    requires forall i :: 0 <= i < |pieces| ==> Intersects(pieces[i].window, start, end)
    requires forall i :: 0 <= i < |pieces| ==> pieces[i].window.end - pieces[i].window.start <= pieces[i].valid
    ensures accepted <==> Accepted(PieceWindows(pieces), start, end)
    ensures accepted ==> |spans| == |pieces| && Ordered(spans, end - start)
    ensures accepted ==> forall i :: 0 <= i < |pieces| ==> spans[i] == SpanOf(pieces[i], start, end)
  {
    hide Ordered, Accepted;
    ghost var ws := PieceWindows(pieces);
    var cursor := start;
    spans := [];
    NoSpans();
    for i := 0 to |pieces|
      invariant |spans| == i && cursor == Cut(ws, i, start, end) && start <= cursor <= end
      invariant forall x :: 0 <= x < i ==> spans[x] == SpanOf(pieces[x], start, end)
      invariant Ordered(spans, cursor - start)
      invariant forall x {:trigger Cut(ws, x, start, end)} :: 0 <= x < i ==> Left(ws[x], start) == Cut(ws, x, start, end)
    {
      var p := pieces[i];
      var left, right := Max(start, p.window.start), Min(end, p.window.end);
      assert ws[i] == p.window;
      if left != cursor {
        NotAccepted(ws, i, start, end);
        return false, [];
      }
      OrderedAppend(spans, Span(p.valid, left - p.window.start, left - start, right - left), cursor - start, right - start);
      spans := spans + [Span(p.valid, left - p.window.start, left - start, right - left)];
      cursor := right;
    }
    accepted := cursor == end;
    AcceptedAtEnd(ws, start, end);
    if !accepted { spans := []; }
  }

  lemma NoSpans()
    ensures Ordered([], 0)
  {
  }

  lemma NotAccepted(ws: seq<CheckpointPage>, i: nat, start: int, end: int)
    requires i < |ws| && Left(ws[i], start) != Cut(ws, i, start, end)
    ensures !Accepted(ws, start, end)
  {
  }

  lemma AcceptedAtEnd(ws: seq<CheckpointPage>, start: int, end: int)
    requires forall x {:trigger Cut(ws, x, start, end)} :: 0 <= x < |ws| ==> Left(ws[x], start) == Cut(ws, x, start, end)
    ensures Accepted(ws, start, end) <==> Cut(ws, |ws|, start, end) == end
  {
  }

  lemma OrderedAppend(spans: seq<Span>, s: Span, reached: nat, more: nat)
    requires Ordered(spans, reached) && s.target == reached && SpanOk(s, more) && reached <= more
    ensures Ordered(spans + [s], more)
  {
  }

  function SpanOf<T>(p: Piece<T>, start: int, end: int): Span
    requires Intersects(p.window, start, end)
  {
    Span(p.valid, Left(p.window, start) - p.window.start, Left(p.window, start) - start, Right(p.window, end) - Left(p.window, start))
  }

  /** Assemble a canonical page from ordered sources that each meet the window. It is rejected exactly
      on a hole or overlap, without writing anything; otherwise every layer has received, for every
      source and every plane, the source's own elements for the positions it covers. */
  method Assemble<T>(destination: seq<array<T>>, widths: Widths, pieces: seq<Piece<T>>, start: int, end: int) returns (accepted: bool)
    requires start < end
    requires forall a, b :: 0 <= a < b < |destination| ==> destination[a] != destination[b]
    requires widths.PerLayer? ==> |widths.layers| == |destination|
    requires forall l :: 0 <= l < |destination| ==> Fits(destination[l][..], end - start, LayerWidths(widths, l))
    requires forall i :: 0 <= i < |pieces| ==> PieceOk(pieces[i], widths, |destination|, start, end)
    modifies set l | 0 <= l < |destination| :: destination[l]
    ensures accepted <==> Accepted(PieceWindows(pieces), start, end)
    ensures !accepted ==> forall l :: 0 <= l < |destination| ==> destination[l][..] == old(destination[l][..])
    ensures accepted ==> forall l :: 0 <= l < |destination| ==> Assembled(destination[l][..], LayerWidths(widths, l), pieces, l, start, end)
  {
    var spans: seq<Span>;
    accepted, spans := PlanSpans(pieces, start, end);
    if !accepted { return; }
    for layer := 0 to |destination|
      invariant forall l :: 0 <= l < layer ==> Assembled(destination[l][..], LayerWidths(widths, l), pieces, l, start, end)
      invariant forall l :: layer <= l < |destination| ==> destination[l][..] == old(destination[l][..])
    {
      var ws := LayerWidths(widths, layer);
      var sources := seq(|pieces|, i requires 0 <= i < |pieces| => pieces[i].layers[layer]);
      AssembleLayer(destination[layer], ws, spans, sources, end - start);
      LayerAssembled(destination[layer][..], ws, pieces, spans, sources, layer, start, end);
    }
  }

  /** The page holds the elements of each source at the positions that source covers. */
  ghost predicate Assembled<T>(data: seq<T>, widths: seq<nat>, pieces: seq<Piece<T>>, layer: nat, start: int, end: int)
    requires start < end
  {
    && Fits(data, end - start, widths)
    && forall i :: 0 <= i < |pieces| ==> layer < |pieces[i].layers| && FromPiece(data, widths, pieces[i], layer, start, end)
  }

  ghost predicate FromPiece<T>(data: seq<T>, widths: seq<nat>, p: Piece<T>, layer: nat, start: int, end: int)
    requires start < end && layer < |p.layers|
  {
    forall k, t, j {:trigger At(end - start, widths, k, t, j)} ::
      0 <= k < |widths| && 0 <= t && In(p.window, start + t) && start + t < end && 0 <= j < widths[k] ==>
        && At(end - start, widths, k, t, j) < |data|
        && At(p.valid, widths, k, start + t - p.window.start, j) < |p.layers[layer]|
        && data[At(end - start, widths, k, t, j)] == p.layers[layer][At(p.valid, widths, k, start + t - p.window.start, j)]
  }

  lemma LayerAssembled<T>(data: seq<T>, widths: seq<nat>, pieces: seq<Piece<T>>, spans: seq<Span>, sources: seq<seq<T>>,
                          layer: nat, start: int, end: int)
    requires start < end && Ordered(spans, end - start) && AllFit(spans, sources, widths) && Fits(data, end - start, widths)
    requires |spans| == |pieces| == |sources|
    requires forall i :: 0 <= i < |pieces| ==> Intersects(pieces[i].window, start, end) && layer < |pieces[i].layers|
    requires forall i :: 0 <= i < |pieces| ==> spans[i] == SpanOf(pieces[i], start, end) && sources[i] == pieces[i].layers[layer]
    requires Progress(data, end - start, widths, spans, sources, |spans|, 0)
    ensures Assembled(data, widths, pieces, layer, start, end)
  {
    forall i | 0 <= i < |pieces| ensures FromPiece(data, widths, pieces[i], layer, start, end) {
      var n, p := end - start, pieces[i];
      forall k, t, j | 0 <= k < |widths| && 0 <= t && In(p.window, start + t) && start + t < end && 0 <= j < widths[k]
        ensures At(n, widths, k, t, j) < |data|
        ensures At(p.valid, widths, k, start + t - p.window.start, j) < |p.layers[layer]|
        ensures data[At(n, widths, k, t, j)] == p.layers[layer][At(p.valid, widths, k, start + t - p.window.start, j)]
      {
        hide At;
        assert Arrived(data, n, widths, k, spans[i], sources[i]);
      }
    }
  }

  /** Whatever pieces a history was cut into: if each piece agrees with it and the pieces are
      accepted for the window, the assembled page agrees with it over the whole window. */
  lemma AssembledAgrees<T(!new)>(data: seq<T>, widths: seq<nat>, pieces: seq<Piece<T>>, layer: nat, start: int, end: int,
                                 history: (nat, int, nat) -> T)
    requires start < end && Assembled(data, widths, pieces, layer, start, end)
    requires Accepted(PieceWindows(pieces), start, end)
    requires forall i :: 0 <= i < |pieces| ==> Intersects(pieces[i].window, start, end)
    requires forall i :: 0 <= i < |pieces| ==>
      Agrees(pieces[i].layers[layer], pieces[i].valid, widths, pieces[i].window.start, pieces[i].window.start, pieces[i].window.end, history)
    ensures Agrees(data, end - start, widths, start, start, end, history)
  {
    var ws := PieceWindows(pieces);
    AcceptedCoversOnce(ws, start, end);
    forall k: nat, t, j: nat | k < |widths| && start <= t < end && j < widths[k]
      ensures Holds(data, end - start, widths, start, k, t, j, history(k, t, j))
    {
      assert Somewhere(ws, t);
      var i :| 0 <= i < |ws| && In(ws[i], t);
      var p := pieces[i];
      assert FromPiece(data, widths, p, layer, start, end);
      assert Holds(p.layers[layer], p.valid, widths, p.window.start, k, t, j, history(k, t, j));
      assert At(end - start, widths, k, t - start, j) < |data|;
    }
  }
}
