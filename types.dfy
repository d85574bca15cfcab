/** The records the app passes around. The fields are the ones the code
    actually reads and writes, which include a few that the declared
    interfaces lack: a plan's `weeks`, `reasoning` and `durationWeeks`, a
    session record's `feedback`, and the article and feedback records. */
module Types {

  datatype Option<+T> = None | Some(value: T)

  /** JavaScript falsiness of an optional string: absent or empty. */
  predicate Falsy(s: Option<string>)
  {
    s.None? || s.value == ""
  }

  /** `s || fallback` for an optional string. */
  function OrElse(s: Option<string>, fallback: string): (r: string)
    ensures Falsy(s) ==> r == fallback
    ensures !Falsy(s) ==> r == s.value && r != ""
  {
    if Falsy(s) then fallback else s.value
  }

  datatype Difficulty = Iniciante | Intermediario | Avancado

  datatype Category = Aquecimento | Pe | Sentado | Inversao | Restaurativa | Core | Finalizacao

  datatype Goal = Flexibilidade | Forca | Relaxamento | AlivioDeDor

  function GoalName(g: Goal): string
  {
    match g
    case Flexibilidade => "Flexibilidade"
    case Forca => "Força"
    case Relaxamento => "Relaxamento"
    case AlivioDeDor => "Alívio de Dor"
  }

  /** Session length in minutes. */
  type Duration = d: int | d == 15 || d == 30 || d == 45 witness 15

  datatype Discomfort = Lombar | Joelhos | PescocoOmbros | Punhos | Nenhum

  function DiscomfortName(d: Discomfort): string
  {
    match d
    case Lombar => "Lombar"
    case Joelhos => "Joelhos"
    case PescocoOmbros => "Pescoço/Ombros"
    case Punhos => "Punhos"
    case Nenhum => "Nenhum"
  }

  datatype Media = Media(thumbnailUrl: string, videoEmbedUrl: string)

  datatype Pose = Pose(
    id: string,
    sanskritName: string,
    portugueseName: string,
    difficulty: Difficulty,
    category: Category,
    benefits: seq<string>,
    media: Media,
    durationDefault: int,  // seconds
    description: string)

  /** A user's profile. `startDate` is the day number on which the plan started. */
  datatype UserPreferences = UserPreferences(
    userId: Option<string>,
    level: Difficulty,
    goal: Goal,
    duration: Duration,
    age: Option<int>,
    weight: Option<int>,
    discomforts: seq<Discomfort>,
    hasOnboarded: bool,
    startDate: Option<int>)

  datatype Routine = Routine(id: string, name: string, poses: seq<Pose>, totalDuration: int)

  datatype Mood = Happy | Calm | Tired | Energized

  /** One answered question of a feedback story. */
  datatype Response = Response(question: string, answer: Option<string>, score: Option<int>)

  datatype StoryType = PostPractice | WeeklyCheckin | WeeklyReview

  datatype FeedbackRecord = FeedbackRecord(kind: StoryType, responses: seq<Response>)

  /** A history entry; `date` is the ISO text YYYY-MM-DD, `duration` is in minutes. */
  datatype SessionRecord = SessionRecord(
    id: string,
    userId: Option<string>,
    date: string,
    routineName: string,
    duration: int,
    mood: Option<Mood>,
    feedback: Option<FeedbackRecord>)

  datatype Activity = Rest | Active

  datatype PlanDay = PlanDay(dayOfWeek: int, activityType: Activity, focus: Option<string>, description: string)

  datatype TrainingPlan = TrainingPlan(
    id: string,
    userId: Option<string>,
    name: string,
    description: string,
    schedule: seq<PlanDay>,
    weeks: Option<seq<seq<PlanDay>>>,
    reasoning: Option<seq<string>>,
    durationWeeks: Option<int>)

  datatype Comment = Comment(id: string, author: string, text: string)

  datatype Article = Article(
    id: string,
    userId: Option<string>,
    title: string,
    excerpt: string,
    imageUrl: string,
    category: string,
    author: string,
    readTime: string,
    content: seq<string>,
    likes: int,
    likedBy: seq<string>,
    comments: seq<Comment>,
    isUserGenerated: bool)
}
