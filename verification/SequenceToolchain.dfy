/** From pulses to the sequencer's event memory: compiled, encoded, decoded, loaded and committed. */
module SequenceToolchain {
  import opened Crc32
  import opened Protocol
  import opened Waveform
  import opened SequenceImage
  import opened SequenceLoader

  /** What the compiler makes of some pulses survives the image and the load: the R5 commits it, and the table
      in the event memory drives exactly what the pulses ask for. */
  lemma PulsesReachTheSequencer(pulses: seq<Pulse>, events: seq<Event>, d: Loader)
    requires Valid(events) && Means(events, pulses) && Safe(d) && d.idle
    ensures Encode(events).Some?
    ensures Decode(Encode(events).value) == Some(events)
    ensures var image := Encode(events).value;
      && |image| >= HEADER_SIZE
      && Safe(Begin(d, true, |events|, Checksum(image[HEADER_SIZE..]), true).0)
      && (var done := Commit(LoadAll(Begin(d, true, |events|, Checksum(image[HEADER_SIZE..]), true).0, events),
                             true, |events|).0;
          && done.committed && Shaped(done) && done.count <= MAX_EVENTS
          && forall t: nat ::
               && (LevelAt(Table(done.ram, done.count), t) % 2 == 1 <==> Covered(pulses, 0, t))
               && (LevelAt(Table(done.ram, done.count), t) / 2 % 2 == 1 <==> Covered(pulses, 1, t))
               && LevelAt(Table(done.ram, done.count), t) / 4 == 0)
  {
    hide Safe, SequenceImage.Payload, Checksum, LoadAll, Commit, Table, SequenceImage.Header, Begin, LevelAt, Covered,
         Canonical, Shaped;
    var image := Encode(events).value;
    assert image[HEADER_SIZE..] == SequenceImage.Payload(events);
    ImageBijection(image, events);
    LoadCommits(d, events, Checksum(SequenceImage.Payload(events)));
  }

  /** Compiled pulse lists have equal images exactly when they ask for the same waveform. */
  lemma OneImageOneWaveform(p: seq<Pulse>, a: seq<Event>, q: seq<Pulse>, b: seq<Event>)
    requires Valid(a) && Valid(b) && Means(a, p) && Means(b, q)
    ensures Encode(a) == Encode(b) <==> SameWave(p, q)
  {
    hide SequenceImage.Payload, Checksum, SequenceImage.Header, LevelAt, Covered, Decode;
    EqualTables(a, p, b, q);
    ImageBijection(Encode(a).value, a);
    ImageBijection(Encode(a).value, b);
  }
}
