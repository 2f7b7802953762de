/**
 * The dispatcher dashboard's map: the icon and color of a task marker, and
 * the bookkeeping of the map proxy, which caches one marker and one popup
 * per task, one marker per courier, and one polyline layer group of each
 * kind per courier. Leaflet and React objects are handles whose state is
 * reduced to what the proxy sets on them.
 */
module DashboardMap {
  import opened Values

  // ---------------------------------------------------------------------
  // Decision tables
  // ---------------------------------------------------------------------

  datatype Tag = Tag(name: string, color: string)

  datatype TaskGroup = TaskGroup(tags: seq<Tag>)

  datatype LatLng = LatLng(latitude: real, longitude: real)

  /** A task as the map reads it: its id, status and type as strings, its group's and its own tags, and where it is. */
  datatype MapTask = MapTask(id: int, status: string, taskType: string, group: Option<TaskGroup>, tags: seq<Tag>, geo: LatLng)

  const DefaultColor := "#777"

  /** `taskIcon`: the icon name a task's marker shows. */
  function TaskIcon(task: MapTask): (icon: string)
    ensures icon == "cube" <==> task.status == "TODO" && task.taskType == "PICKUP"
    ensures icon == "arrow-down" <==> task.status == "TODO" && task.taskType == "DROPOFF"
    ensures icon == "check" <==> task.status == "DONE"
    ensures icon == "remove" <==> task.status == "FAILED"
    ensures icon == "ban" <==> task.status == "CANCELLED"
    ensures icon == "question" <==>
              task.status !in {"DONE", "FAILED", "CANCELLED"}
              && !(task.status == "TODO" && task.taskType in {"PICKUP", "DROPOFF"})
  {
    match task.status
    case "TODO" =>
      if task.taskType == "PICKUP" then "cube"
      else if task.taskType == "DROPOFF" then "arrow-down"
      else "question"
    case "DONE" => "check"
    case "FAILED" => "remove"
    case "CANCELLED" => "ban"
    case _ => "question"
  }

  /** The task or its group carries a tag of this color. */
  predicate IsTagColor(task: MapTask, color: string)
  {
    (exists i :: 0 <= i < |task.tags| && task.tags[i].color == color)
    || (task.group.Some? && exists i :: 0 <= i < |task.group.value.tags| && task.group.value.tags[i].color == color)
  }

  /** `taskColor`: the first tag of the task's group, else the task's first tag, else gray. */
  function TaskColor(task: MapTask): (color: string)
    ensures color == DefaultColor || IsTagColor(task, color)
    ensures task.group.Some? && |task.group.value.tags| > 0 ==> color == task.group.value.tags[0].color
    ensures (task.group.None? || |task.group.value.tags| == 0) && |task.tags| > 0 ==> color == task.tags[0].color
  {
    if task.group.Some? && |task.group.value.tags| > 0 then task.group.value.tags[0].color
    else if |task.tags| > 0 then task.tags[0].color
    else DefaultColor
  }

  /** Group tags win: as long as the group has tags, the task's own tags do not change the color. */
  lemma GroupTagsWin(task: MapTask, tags: seq<Tag>)
    requires task.group.Some? && |task.group.value.tags| > 0
    ensures TaskColor(task.(tags := tags)) == TaskColor(task)
  {
  }

  /** Without any tag, a task is gray. */
  lemma UntaggedIsGray(task: MapTask)
    requires (task.group.None? || |task.group.value.tags| == 0) && task.tags == []
    ensures TaskColor(task) == DefaultColor
  {
  }

  /** `markerColor || taskColor(task)`: a non-empty marker color wins over the task's own. */
  function MarkerColor(markerColor: Option<string>, task: MapTask): (color: string)
    ensures markerColor.Some? && markerColor.value != "" ==> color == markerColor.value
    ensures markerColor.None? || markerColor.value == "" ==> color == TaskColor(task)
  {
    if markerColor.Some? && markerColor.value != "" then markerColor.value else TaskColor(task)
  }

  // ---------------------------------------------------------------------
  // Handles
  // ---------------------------------------------------------------------

  /** A task's marker: the icon and color it shows, where it stands, and whether it is on the map. */
  class TaskMarker {
    var icon: string
    var color: string
    var latLng: LatLng
    var onMap: bool

    constructor (icon: string, color: string, latLng: LatLng)
      ensures this.icon == icon && this.color == color && this.latLng == latLng && !onMap
    {
      this.icon := icon;
      this.color := color;
      this.latLng := latLng;
      onMap := false;
    }
  }

  /** A task popup's React component, holding the task it shows. */
  class TaskPopup {
    var task: MapTask

    constructor (task: MapTask)
      ensures this.task == task
    {
      this.task := task;
    }
  }

  /** The avatar icon of a courier. */
  datatype CourierIcon = Avatar(username: string)

  /** The content of a courier's popup. */
  datatype CourierPopup = CourierPopup(username: string, lastSeen: string)

  class CourierMarker {
    var icon: CourierIcon
    var position: LatLng
    var opacity: real
    var popup: CourierPopup

    constructor (position: LatLng, icon: CourierIcon, popup: CourierPopup)
      ensures this.position == position && this.icon == icon && this.popup == popup && opacity == 1.0
    {
      this.position := position;
      this.icon := icon;
      this.popup := popup;
      opacity := 1.0;
    }
  }

  /** A Leaflet layer group holding a courier's polylines. */
  class LayerGroup {
    constructor ()
    {
    }
  }

  // ---------------------------------------------------------------------
  // The proxy
  // ---------------------------------------------------------------------

  class MapProxy {
    var taskMarkers: map<int, TaskMarker>
    var taskPopups: map<int, TaskPopup>
    var courierMarkers: map<string, CourierMarker>
    /** The markers added to the couriers' layer group, in order. */
    var courierLayer: seq<CourierMarker>
    var polylineLayerGroups: map<string, LayerGroup>
    var polylineAsTheCrowFliesLayerGroups: map<string, LayerGroup>

    /** Every cached marker has its popup, and every courier marker is on the couriers' layer. */
    ghost predicate Valid()
      reads this
    {
      taskMarkers.Keys <= taskPopups.Keys
      && forall username :: username in courierMarkers ==> courierMarkers[username] in courierLayer
    }

    constructor ()
      ensures Valid()
      ensures taskMarkers == map[] && taskPopups == map[] && courierMarkers == map[] && courierLayer == []
      ensures polylineLayerGroups == map[] && polylineAsTheCrowFliesLayerGroups == map[]
    {
      taskMarkers := map[];
      taskPopups := map[];
      courierMarkers := map[];
      courierLayer := [];
      polylineLayerGroups := map[];
      polylineAsTheCrowFliesLayerGroups := map[];
    }

    /**
     * `addTask`: the first time a task is added, a new marker and popup are
     * created and cached; afterwards the cached marker gets the current
     * icon, color and position, and the cached popup the current task.
     * Either way the marker ends up on the map.
     */
    method AddTask(task: MapTask, markerColor: Option<string>)
      requires Valid()
      modifies this, (if task.id in taskMarkers then {taskMarkers[task.id]} else {}),
               (if task.id in taskPopups then {taskPopups[task.id]} else {})
      ensures Valid()
      ensures task.id in taskMarkers && task.id in taskPopups
      ensures taskMarkers[task.id].icon == TaskIcon(task)
      ensures taskMarkers[task.id].color == MarkerColor(markerColor, task)
      ensures taskMarkers[task.id].latLng == task.geo && taskMarkers[task.id].onMap
      ensures taskPopups[task.id].task == task
      ensures task.id in old(taskMarkers) ==> taskMarkers == old(taskMarkers) && taskPopups == old(taskPopups)
      ensures task.id !in old(taskMarkers) ==>
                && fresh(taskMarkers[task.id]) && fresh(taskPopups[task.id])
                && taskMarkers == old(taskMarkers)[task.id := taskMarkers[task.id]]
                && taskPopups == old(taskPopups)[task.id := taskPopups[task.id]]
      ensures courierMarkers == old(courierMarkers) && courierLayer == old(courierLayer)
      ensures polylineLayerGroups == old(polylineLayerGroups)
      ensures polylineAsTheCrowFliesLayerGroups == old(polylineAsTheCrowFliesLayerGroups)
    {
      var color := MarkerColor(markerColor, task);
      var iconName := TaskIcon(task);
      if task.id !in taskMarkers {
        var marker := new TaskMarker(iconName, color, task.geo);
        var popup := new TaskPopup(task);
        taskMarkers := taskMarkers[task.id := marker];
        taskPopups := taskPopups[task.id := popup];
        marker.onMap := true;
      } else {
        var marker := taskMarkers[task.id];
        marker.icon := iconName;
        marker.color := color;
        if marker.latLng != task.geo {
          marker.latLng := task.geo;
        }
        var popup := taskPopups[task.id];
        popup.task := task;
        marker.onMap := true;
      }
    }

    /** `hideTask`: takes a cached marker off the map; an unknown task is ignored. */
    method HideTask(task: MapTask)
      modifies if task.id in taskMarkers then {taskMarkers[task.id]} else {}
      ensures task.id in taskMarkers ==> !taskMarkers[task.id].onMap
      ensures task.id in taskMarkers ==>
                var marker := taskMarkers[task.id];
                marker.icon == old(marker.icon) && marker.color == old(marker.color) && marker.latLng == old(marker.latLng)
    {
      if task.id in taskMarkers {
        var marker := taskMarkers[task.id];
        marker.onMap := false;
      }
    }

    /** `removeTask`: forgets the task's marker and nothing else; its popup stays cached. */
    method RemoveTask(task: MapTask)
      requires Valid()
      modifies this
      ensures Valid()
      ensures taskMarkers == old(taskMarkers) - {task.id}
      ensures taskPopups == old(taskPopups) && courierMarkers == old(courierMarkers) && courierLayer == old(courierLayer)
      ensures polylineLayerGroups == old(polylineLayerGroups)
      ensures polylineAsTheCrowFliesLayerGroups == old(polylineAsTheCrowFliesLayerGroups)
    {
      taskMarkers := taskMarkers - {task.id};
    }

    /** `getPolylineLayerGroup`: the courier's group, created and cached on first use. */
    method GetPolylineLayerGroup(username: string) returns (group: LayerGroup)
      requires Valid()
      modifies this
      ensures Valid()
      ensures username in polylineLayerGroups && group == polylineLayerGroups[username]
      ensures username in old(polylineLayerGroups) ==> polylineLayerGroups == old(polylineLayerGroups)
      ensures username !in old(polylineLayerGroups) ==>
                fresh(group) && polylineLayerGroups == old(polylineLayerGroups)[username := group]
      ensures polylineAsTheCrowFliesLayerGroups == old(polylineAsTheCrowFliesLayerGroups)
      ensures taskMarkers == old(taskMarkers) && taskPopups == old(taskPopups)
      ensures courierMarkers == old(courierMarkers) && courierLayer == old(courierLayer)
    {
      if username in polylineLayerGroups {
        group := polylineLayerGroups[username];
      } else {
        group := new LayerGroup();
        polylineLayerGroups := polylineLayerGroups[username := group];
      }
    }

    /** `getPolylineAsTheCrowFliesLayerGroup`: the same, for the straight-line routes. */
    method GetPolylineAsTheCrowFliesLayerGroup(username: string) returns (group: LayerGroup)
      requires Valid()
      modifies this
      ensures Valid()
      ensures username in polylineAsTheCrowFliesLayerGroups && group == polylineAsTheCrowFliesLayerGroups[username]
      ensures username in old(polylineAsTheCrowFliesLayerGroups) ==>
                polylineAsTheCrowFliesLayerGroups == old(polylineAsTheCrowFliesLayerGroups)
      ensures username !in old(polylineAsTheCrowFliesLayerGroups) ==>
                fresh(group) && polylineAsTheCrowFliesLayerGroups == old(polylineAsTheCrowFliesLayerGroups)[username := group]
      ensures polylineLayerGroups == old(polylineLayerGroups)
      ensures taskMarkers == old(taskMarkers) && taskPopups == old(taskPopups)
      ensures courierMarkers == old(courierMarkers) && courierLayer == old(courierLayer)
    {
      if username in polylineAsTheCrowFliesLayerGroups {
        group := polylineAsTheCrowFliesLayerGroups[username];
      } else {
        group := new LayerGroup();
        polylineAsTheCrowFliesLayerGroups := polylineAsTheCrowFliesLayerGroups[username := group];
      }
    }

    /** `setOnline`: a known courier's marker shows the avatar at full opacity; an unknown courier is ignored. */
    method SetOnline(username: string)
      modifies if username in courierMarkers then {courierMarkers[username]} else {}
      ensures username in courierMarkers ==>
                courierMarkers[username].opacity == 1.0 && courierMarkers[username].icon == Avatar(username)
                && courierMarkers[username].position == old(courierMarkers[username].position)
                && courierMarkers[username].popup == old(courierMarkers[username].popup)
    {
      if username in courierMarkers {
        var marker := courierMarkers[username];
        marker.icon := Avatar(username);
        marker.opacity := 1.0;
      }
    }

    /** `setOffline`: a known courier's marker is dimmed to half opacity; an unknown courier is ignored. */
    method SetOffline(username: string)
      modifies if username in courierMarkers then {courierMarkers[username]} else {}
      ensures username in courierMarkers ==>
                courierMarkers[username].opacity == 0.5 && courierMarkers[username].icon == Avatar(username)
                && courierMarkers[username].position == old(courierMarkers[username].position)
                && courierMarkers[username].popup == old(courierMarkers[username].popup)
    {
      if username in courierMarkers {
        var marker := courierMarkers[username];
        marker.icon := Avatar(username);
        marker.opacity := 0.5;
      }
    }

    /**
     * `setGeolocation`: the first position of a courier creates a fully
     * opaque marker, adds it to the couriers' layer and caches it; later
     * positions move the cached marker and refresh its popup.
     */
    method SetGeolocation(username: string, position: LatLng, lastSeen: string)
      requires Valid()
      modifies this, if username in courierMarkers then {courierMarkers[username]} else {}
      ensures Valid()
      ensures username in courierMarkers
      ensures courierMarkers[username].position == position
      ensures courierMarkers[username].popup == CourierPopup(username, lastSeen)
      ensures username in old(courierMarkers) ==>
                && courierMarkers == old(courierMarkers) && courierLayer == old(courierLayer)
                && courierMarkers[username].opacity == old(courierMarkers[username].opacity)
                && courierMarkers[username].icon == old(courierMarkers[username].icon)
      ensures username !in old(courierMarkers) ==>
                && fresh(courierMarkers[username])
                && courierMarkers == old(courierMarkers)[username := courierMarkers[username]]
                && courierLayer == old(courierLayer) + [courierMarkers[username]]
                && courierMarkers[username].opacity == 1.0 && courierMarkers[username].icon == Avatar(username)
      ensures taskMarkers == old(taskMarkers) && taskPopups == old(taskPopups)
      ensures polylineLayerGroups == old(polylineLayerGroups)
      ensures polylineAsTheCrowFliesLayerGroups == old(polylineAsTheCrowFliesLayerGroups)
    {
      var content := CourierPopup(username, lastSeen);
      if username !in courierMarkers {
        var marker := new CourierMarker(position, Avatar(username), content);
        courierLayer := courierLayer + [marker];
        courierMarkers := courierMarkers[username := marker];
      } else {
        var marker := courierMarkers[username];
        marker.position := position;
        marker.popup := content;
      }
    }
  }

  /** Asking twice for a courier's polyline group gives the same group, and only one is cached. */
  method GetPolylineLayerGroupTwice(proxy: MapProxy, username: string) returns (first: LayerGroup, second: LayerGroup)
    requires proxy.Valid()
    modifies proxy
    ensures first == second
    ensures proxy.polylineLayerGroups.Keys == old(proxy.polylineLayerGroups.Keys) + {username}
  {
    first := proxy.GetPolylineLayerGroup(username);
    second := proxy.GetPolylineLayerGroup(username);
  }
}
