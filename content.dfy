/** The static catalogue of `data/content.ts`: the seed projects, beats, packs and travel
    entries. `components/Portfolio.tsx` keeps its own copy of the same six projects. */
module Content {
  import opened Wrappers
  import opened Types

  const Projects: seq<Project> := [
    Project("1", "Neon Nights", "Luna Ray", Produced, "https://picsum.photos/seed/music1/400/400",
      "Synthwave production with deep bass and retro drums.", "2023", None),
    Project("2", "Urban Jungle", "The Collective", Mixed, "https://picsum.photos/seed/music2/400/400",
      "Complete mixdown for a 12-track Hip Hop album.", "2023", None),
    Project("3", "Acoustic Soul", "Sarah Jenkins", Mastered, "https://picsum.photos/seed/music3/400/400",
      "Mastering for streaming platforms ensuring -14 LUFS compliance.", "2024", None),
    Project("4", "Future Bass Vol. 1", "ARDBEATZ Exclusives", Produced, "https://picsum.photos/seed/music4/400/400",
      "High energy future bass instrumental pack.", "2024", None),
    Project("5", "Trap Anthem", "Lil Zenith", Mixed, "https://picsum.photos/seed/music5/400/400",
      "Vocal production and beat mixing.", "2023", None),
    Project("6", "Ethereal", "Void Walker", Mastered, "https://picsum.photos/seed/music6/400/400",
      "Stem mastering for cinematic trailer music.", "2024", None)
  ]

  const AudioA := "https://cdn.pixabay.com/audio/2022/03/24/audio_0656a2977d.mp3"
  const AudioB := "https://cdn.pixabay.com/audio/2022/05/27/audio_1808fbf07a.mp3"

  const Beats: seq<Beat> := [
    Beat("1", "Midnight Drive", 140, "Cm", 29.99, "https://picsum.photos/seed/beat1/300/300",
      ["Trap", "Dark", "Hard"], Some(AudioA), Some(AudioA)),
    Beat("2", "Summer Vibes", 98, "G maj", 34.99, "https://picsum.photos/seed/beat2/300/300",
      ["Afrobeat", "Chill", "Smooth"], Some(AudioB), Some(AudioB)),
    Beat("3", "Drill Sergeant", 142, "Fm", 29.99, "https://picsum.photos/seed/beat3/300/300",
      ["Drill", "UK", "Aggressive"], Some(AudioA), Some(AudioA)),
    Beat("4", "Cloud Nine", 85, "Am", 49.99, "https://picsum.photos/seed/beat4/300/300",
      ["Lo-Fi", "R&B", "Soul"], Some(AudioB), Some(AudioB)),
    Beat("5", "Bongo Flava Hit", 102, "C maj", 39.99, "https://picsum.photos/seed/beat5/300/300",
      ["Bongo", "Dance", "Pop"], Some(AudioA), Some(AudioA)),
    Beat("6", "Serengeti Trap", 130, "Dm", 29.99, "https://picsum.photos/seed/beat6/300/300",
      ["Trap", "Ethnic", "Flute"], Some(AudioB), Some(AudioB))
  ]

  const Packs: seq<BeatPack> := [
    BeatPack("p1", "Essentials Trap Pack", 59.99, 89.97, "https://picsum.photos/seed/pack1/400/400",
      "The ultimate toolkit for modern trap production. Includes 3 of our hardest hitting beats.",
      ["Midnight Drive", "Drill Sergeant", "Serengeti Trap"], Some(AudioA)),
    BeatPack("p2", "Chill Vibes Bundle", 64.99, 99.99, "https://picsum.photos/seed/pack2/400/400",
      "Smooth melodies and laid back rhythms perfect for your next R&B or Afrobeat hit.",
      ["Summer Vibes", "Cloud Nine", "Bongo Flava Hit"], Some(AudioB))
  ]

  const TravelEntries: seq<TravelEntry> := [
    TravelEntry("t1", "Serena Hotel Rooftop", Hotel, "https://picsum.photos/seed/travel1/800/600",
      "Dar es Salaam, CBD",
      "Amazing sunset views and cocktails. The ambiance is perfect for evening relaxation after a studio session.",
      "Oct 2023", Some(5)),
    TravelEntry("t2", "Samaki Samaki Seafood", Food, "https://picsum.photos/seed/travel2/800/600",
      "Masaki", "Best grilled calamari in town. A must-visit for any food lover in Dar.", "Nov 2023", Some(4)),
    TravelEntry("t3", "Zanzibar Weekend", Travel, "https://picsum.photos/seed/travel3/800/600",
      "Nungwi, Zanzibar", "Crystal clear waters and white sands. Recharging creativity by the ocean.",
      "Dec 2023", Some(5)),
    TravelEntry("t4", "Cape Town Studio Tour", Travel, "https://picsum.photos/seed/travel4/800/600",
      "Cape Town, SA",
      "Visited some top-tier studios and connected with local producers. The music scene here is vibrant.",
      "Jan 2024", Some(5))
  ]
}
